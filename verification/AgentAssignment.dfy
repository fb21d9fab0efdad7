/**
 * assignedAgentHostnames: four greedy passes give VM names to Agents, the strongest evidence
 * first. Agents come from one namespace, so their names are unique; VM names need not be.
 */
module AgentAssignment {
  import opened Common
  import opened AgentMatching

  /** The evidence on which a pass gives a VM to an Agent. */
  datatype Evidence = Hardware | SpecHostname | RecordedRef | AnyHostname

  function Rank(e: Evidence): nat {
    match e
    case Hardware => 0
    case SpecHostname => 1
    case RecordedRef => 2
    case AnyHostname => 3
  }

  predicate Edge(e: Evidence, vm: OwnedVM, a: AgentInfo) {
    && vm.name != "" && vm.phase != Bound
    && match e
       case Hardware => HardwareMatch(vm, a)
       case SpecHostname => vm.name == a.hostname && !Conflicts(vm, a)
       case RecordedRef => RefMatch(vm, a)
       case AnyHostname => vm.name == ObservedHostname(a) && !Conflicts(vm, a)
  }

  /** The evidence of each pass in plain terms: named VMs only, none that is bound or contradicted by hardware. */
  lemma EvidenceMeans(e: Evidence, vm: OwnedVM, a: AgentInfo)
    ensures var shared := (vm.biosUUID != "" && vm.biosUUID == a.biosUUID) || (vm.mac != "" && vm.mac == a.mac);
            var unknown := (vm.biosUUID == "" || a.biosUUID == "") && (vm.mac == "" || a.mac == "");
            Edge(e, vm, a) <==>
              && vm.name != "" && vm.phase != Bound && (shared || (e != Hardware && unknown))
              && match e
                 case Hardware => true
                 case SpecHostname => vm.name == a.hostname
                 case RecordedRef => vm.agentRef == Some(a.name)
                 case AnyHostname => vm.name == (if a.hostname != "" then a.hostname else a.inventoryHostname)
  {}

  type Assignment = map<string, string>

  /** The Agent could take VM name v on this evidence. */
  ghost predicate Candidate(e: Evidence, vms: seq<OwnedVM>, a: AgentInfo, v: string) {
    exists i :: 0 <= i < |vms| && vms[i].name == v && Edge(e, vms[i], a)
  }

  /** The Agent could take v on this or stronger evidence. */
  ghost predicate CandidateUpTo(e: Evidence, vms: seq<OwnedVM>, a: AgentInfo, v: string) {
    exists f :: Rank(f) <= Rank(e) && Candidate(f, vms, a, v)
  }

  /** v went to an Agent on this or stronger evidence. */
  ghost predicate TakenUpTo(e: Evidence, agents: seq<AgentInfo>, vms: seq<OwnedVM>, asg: Assignment, v: string) {
    exists j :: 0 <= j < |agents| && agents[j].name in asg && asg[agents[j].name] == v &&
        CandidateUpTo(e, vms, agents[j], v)
  }

  /** The Agent has a VM on this or stronger evidence, or all it could take on this evidence are taken so. */
  ghost predicate Settled(e: Evidence, agents: seq<AgentInfo>, vms: seq<OwnedVM>, asg: Assignment, a: AgentInfo) {
    || (a.name in asg && CandidateUpTo(e, vms, a, asg[a.name]))
    || (forall v :: Candidate(e, vms, a, v) ==> TakenUpTo(e, agents, vms, asg, v))
  }

  ghost predicate Injective(asg: Assignment) {
    forall m, n :: m in asg && n in asg && m != n ==> asg[m] != asg[n]
  }

  /** What holds after the passes up to e. */
  ghost predicate AssignedUpTo(e: Evidence, agents: seq<AgentInfo>, vms: seq<OwnedVM>, asg: Assignment,
                               reserved: set<string>) {
    && Injective(asg)
    && (forall v :: v in reserved <==> v in asg.Values)
    && (forall v :: v in reserved ==> TakenUpTo(e, agents, vms, asg, v))
  }

  ghost predicate Extends(asg: Assignment, asg': Assignment) {
    forall n :: n in asg ==> n in asg' && asg'[n] == asg[n]
  }

  lemma TakenStays(e: Evidence, f: Evidence, agents: seq<AgentInfo>, vms: seq<OwnedVM>, asg: Assignment,
                   asg': Assignment, v: string)
    requires Extends(asg, asg') && Rank(e) <= Rank(f) && TakenUpTo(e, agents, vms, asg, v)
    ensures TakenUpTo(f, agents, vms, asg', v)
  {}

  lemma SettledStays(e: Evidence, agents: seq<AgentInfo>, vms: seq<OwnedVM>, asg: Assignment, asg': Assignment,
                     a: AgentInfo)
    requires Extends(asg, asg') && Settled(e, agents, vms, asg, a)
    ensures Settled(e, agents, vms, asg', a)
  {}

  /** The inner loop: the first VM the Agent may take that nobody has reserved. */
  method FirstFree(e: Evidence, vms: seq<OwnedVM>, a: AgentInfo, reserved: set<string>) returns (r: Option<string>)
    ensures r.Some? ==> Candidate(e, vms, a, r.value)
    ensures r.Some? ==>
              exists i :: 0 <= i < |vms| && vms[i].name == r.value && Edge(e, vms[i], a) && r.value !in reserved &&
                forall j :: 0 <= j < i && Edge(e, vms[j], a) ==> vms[j].name in reserved
    ensures r.None? ==> forall v :: Candidate(e, vms, a, v) ==> v in reserved
  {
    for i := 0 to |vms|
      invariant forall j :: 0 <= j < i && Edge(e, vms[j], a) ==> vms[j].name in reserved
    {
      if Edge(e, vms[i], a) && vms[i].name !in reserved {
        return Some(vms[i].name);
      }
    }
    return None;
  }

  /** Giving a free VM to an Agent that has none. */
  lemma GiveKeeps(e: Evidence, agents: seq<AgentInfo>, vms: seq<OwnedVM>, asg: Assignment, reserved: set<string>,
                  i: nat, v: string)
    requires AssignedUpTo(e, agents, vms, asg, reserved) && i < |agents| && agents[i].name !in asg
    requires Candidate(e, vms, agents[i], v) && v !in reserved
    ensures var asg' := asg[agents[i].name := v];
            && Extends(asg, asg')
            && AssignedUpTo(e, agents, vms, asg', reserved + {v})
            && Settled(e, agents, vms, asg', agents[i])
  {
    hide Candidate;
    var asg' := asg[agents[i].name := v];
    assert CandidateUpTo(e, vms, agents[i], v);
    assert TakenUpTo(e, agents, vms, asg', v);
    forall u | u in reserved ensures TakenUpTo(e, agents, vms, asg', u) {
      TakenStays(e, e, agents, vms, asg, asg', u);
    }
    forall u | u in reserved ensures u in asg'.Values {
      var n :| n in asg && asg[n] == u;
      assert asg'[n] == u;
    }
  }

  /** One pass over all Agents. */
  method RunPass(e: Evidence, agents: seq<AgentInfo>, vms: seq<OwnedVM>, asg0: Assignment, reserved0: set<string>)
    returns (asg: Assignment, reserved: set<string>)
    requires UniqueNames(agents) && AssignedUpTo(e, agents, vms, asg0, reserved0)
    requires e == Hardware ==> asg0 == map[]
    requires forall n :: n in asg0 ==>
               exists j :: 0 <= j < |agents| && agents[j].name == n && CandidateUpTo(e, vms, agents[j], asg0[n])
    ensures Extends(asg0, asg) && AssignedUpTo(e, agents, vms, asg, reserved)
    ensures forall n :: n in asg ==>
              exists j :: 0 <= j < |agents| && agents[j].name == n && CandidateUpTo(e, vms, agents[j], asg[n])
    ensures forall j :: 0 <= j < |agents| ==> Settled(e, agents, vms, asg, agents[j])
  {
    hide Candidate, CandidateUpTo, AssignedUpTo, Settled;
    asg, reserved := asg0, reserved0;
    for i := 0 to |agents|
      invariant Extends(asg0, asg) && AssignedUpTo(e, agents, vms, asg, reserved)
      invariant e == Hardware ==> forall n :: n in asg ==> exists j :: 0 <= j < i && agents[j].name == n
      invariant forall n :: n in asg ==>
                  exists j :: 0 <= j < |agents| && agents[j].name == n && CandidateUpTo(e, vms, agents[j], asg[n])
      invariant forall j :: 0 <= j < i ==> Settled(e, agents, vms, asg, agents[j])
    {
      ghost var before := asg;
      var a := agents[i];
      if e != Hardware && a.name in asg {
        AssignedIsSettled(e, agents, vms, asg, i);
      } else {
        var free := FirstFree(e, vms, a, reserved);
        if free.Some? {
          GiveKeeps(e, agents, vms, asg, reserved, i, free.value);
          OwnEvidence(e, vms, a, free.value);
          asg := asg[a.name := free.value];
          reserved := reserved + {free.value};
        } else {
          NothingFreeIsSettled(e, agents, vms, asg, reserved, i);
        }
      }
      forall j | 0 <= j < i ensures Settled(e, agents, vms, asg, agents[j]) {
        SettledStays(e, agents, vms, before, asg, agents[j]);
      }
    }
  }

  lemma OwnEvidence(e: Evidence, vms: seq<OwnedVM>, a: AgentInfo, v: string)
    requires Candidate(e, vms, a, v)
    ensures CandidateUpTo(e, vms, a, v)
  {}

  lemma AssignedIsSettled(e: Evidence, agents: seq<AgentInfo>, vms: seq<OwnedVM>, asg: Assignment, i: nat)
    requires UniqueNames(agents) && i < |agents| && agents[i].name in asg
    requires forall n :: n in asg ==>
               exists j :: 0 <= j < |agents| && agents[j].name == n && CandidateUpTo(e, vms, agents[j], asg[n])
    ensures Settled(e, agents, vms, asg, agents[i])
  {}

  lemma NothingFreeIsSettled(e: Evidence, agents: seq<AgentInfo>, vms: seq<OwnedVM>, asg: Assignment,
                             reserved: set<string>, i: nat)
    requires AssignedUpTo(e, agents, vms, asg, reserved) && i < |agents|
    requires forall v :: Candidate(e, vms, agents[i], v) ==> v in reserved
    ensures Settled(e, agents, vms, asg, agents[i])
  {}

  /** Raising the rank loses nothing. */
  lemma NextPassMayStart(e: Evidence, f: Evidence, agents: seq<AgentInfo>, vms: seq<OwnedVM>, asg: Assignment,
                         reserved: set<string>)
    requires Rank(e) <= Rank(f) && AssignedUpTo(e, agents, vms, asg, reserved)
    requires forall n :: n in asg ==>
               exists j :: 0 <= j < |agents| && agents[j].name == n && CandidateUpTo(e, vms, agents[j], asg[n])
    ensures AssignedUpTo(f, agents, vms, asg, reserved)
    ensures forall n :: n in asg ==>
              exists j :: 0 <= j < |agents| && agents[j].name == n && CandidateUpTo(f, vms, agents[j], asg[n])
  {}

  /** What the finished assignment promises. */
  ghost predicate GoodAssignment(agents: seq<AgentInfo>, vms: seq<OwnedVM>, asg: Assignment) {
    && Injective(asg)
    && (forall n :: n in asg ==>
          exists j :: 0 <= j < |agents| && agents[j].name == n && CandidateUpTo(AnyHostname, vms, agents[j], asg[n]))
    && (forall e, j :: 0 <= j < |agents| ==> Settled(e, agents, vms, asg, agents[j]))
  }

  /** assignedAgentHostnames: an injective greedy matching, settled on every level of evidence. */
  method AssignHostnames(vms: seq<OwnedVM>, agents: seq<AgentInfo>) returns (asg: Assignment)
    requires UniqueNames(agents)
    ensures GoodAssignment(agents, vms, asg)
  {
    hide Candidate, CandidateUpTo, Settled, TakenUpTo;
    var asg1, r1 := RunPass(Hardware, agents, vms, map[], {});
    NextPassMayStart(Hardware, SpecHostname, agents, vms, asg1, r1);
    var asg2, r2 := RunPass(SpecHostname, agents, vms, asg1, r1);
    NextPassMayStart(SpecHostname, RecordedRef, agents, vms, asg2, r2);
    var asg3, r3 := RunPass(RecordedRef, agents, vms, asg2, r2);
    NextPassMayStart(RecordedRef, AnyHostname, agents, vms, asg3, r3);
    var asg4, r4 := RunPass(AnyHostname, agents, vms, asg3, r3);
    asg := asg4;
    forall e: Evidence, j | 0 <= j < |agents| ensures Settled(e, agents, vms, asg, agents[j]) {
      match e
      case Hardware => SettledStays(e, agents, vms, asg1, asg, agents[j]);
      case SpecHostname => SettledStays(e, agents, vms, asg2, asg, agents[j]);
      case RecordedRef => SettledStays(e, agents, vms, asg3, asg, agents[j]);
      case AnyHostname =>
    }
  }

  // ---------- What it means ----------

  /** No assigned VM contradicts the hardware of its Agent, and none is bound. */
  lemma AssignedNeverConflicts(agents: seq<AgentInfo>, vms: seq<OwnedVM>, asg: Assignment, j: nat)
    requires UniqueNames(agents) && GoodAssignment(agents, vms, asg) && j < |agents| && agents[j].name in asg
    ensures exists i ::
              0 <= i < |vms| && vms[i].name == asg[agents[j].name] && !Conflicts(vms[i], agents[j]) &&
                  vms[i].phase != Bound
  {}

  /** An Agent is left without a VM only if every VM it could take on any evidence went to another Agent. */
  lemma AssignmentIsMaximal(agents: seq<AgentInfo>, vms: seq<OwnedVM>, asg: Assignment, j: nat, i: nat, e: Evidence)
    requires GoodAssignment(agents, vms, asg) && j < |agents| && agents[j].name !in asg
    requires i < |vms| && Edge(e, vms[i], agents[j])
    ensures exists k :: 0 <= k < |agents| && k != j && agents[k].name in asg && asg[agents[k].name] == vms[i].name
  {
    assert Settled(e, agents, vms, asg, agents[j]);
    assert Candidate(e, vms, agents[j], vms[i].name);
    var k :| 0 <= k < |agents| && agents[k].name in asg && asg[agents[k].name] == vms[i].name;
    assert k != j;
  }

  /** An Agent gets weaker evidence only if all its hardware matches went to other hardware matches. */
  lemma WeakMatchOnlyAfterHardware(agents: seq<AgentInfo>, vms: seq<OwnedVM>, asg: Assignment, j: nat, i: nat)
    requires GoodAssignment(agents, vms, asg) && j < |agents| && agents[j].name in asg
    requires !Candidate(Hardware, vms, agents[j], asg[agents[j].name])
    requires i < |vms| && Edge(Hardware, vms[i], agents[j])
    ensures exists k :: 0 <= k < |agents| && k != j && agents[k].name in asg && asg[agents[k].name] == vms[i].name
              && Candidate(Hardware, vms, agents[k], vms[i].name)
  {
    assert Settled(Hardware, agents, vms, asg, agents[j]);
    assert Candidate(Hardware, vms, agents[j], vms[i].name);
    assert forall f :: Rank(f) <= 0 ==> f == Hardware;
    var k :| 0 <= k < |agents| && agents[k].name in asg && asg[agents[k].name] == vms[i].name
             && CandidateUpTo(Hardware, vms, agents[k], vms[i].name);
    assert k != j;
  }
}
