/**
 * Any sequence of cycles that prepare Agents, merge and refresh the inventory, seen from one VM
 * that keeps matching a bound Agent: when the planner may select it for deletion.
 */
module VmCycles {
  import opened Common
  import opened AgentMatching
  import opened VmLifecycle
  import opened PoolPlanner
  import VmRefresh

  /**
   * One cycle: the Agents that the last plan prepared after the inventory was recorded, then what the
   * next reconcile observes: the VMs of the VsphereAgents, the Agents and the Machines.
   */
  datatype Cycle = Cycle(prepared: seq<Preparation>, current: seq<OwnedVM>, agents: seq<AgentInfo>,
                         machines: seq<MachineInfo>, now: int)

  /** The inventory that one cycle computes from the recorded one. */
  function Step(recorded: seq<OwnedVM>, c: Cycle): seq<OwnedVM> {
    Refresh(Merge(Prepare(recorded, c.prepared), c.current), c.agents, c.machines, c.now)
  }

  function Cycles(recorded: seq<OwnedVM>, cs: seq<Cycle>): seq<OwnedVM> {
    if cs == [] then recorded else Step(Cycles(recorded, cs[..|cs| - 1]), cs[|cs| - 1])
  }

  // ---------- One VM on its own ----------

  /** What was prepared before, the VM's current entry, the Agent it matches and the Machines that are listed. */
  datatype Sight = Sight(prepared: seq<Preparation>, current: OwnedVM, agent: AgentInfo, machines: map<string, bool>,
                         now: int)

  predicate Names(p: Preparation, name: string) {
    p.hostname != "" && p.hostname == name
  }

  /** Some Agent was prepared for this VM before the sight. */
  ghost predicate Prepared(o: Sight) {
    exists k :: 0 <= k < |o.prepared| && Names(o.prepared[k], o.current.name)
  }

  /** The VM of that name after these Agents were patched. */
  function PrepareVM(vm: OwnedVM, name: string, ps: seq<Preparation>): OwnedVM {
    if ps == [] then vm
    else
      var n := |ps| - 1;
      var before := PrepareVM(vm, name, ps[..n]);
      if Names(ps[n], name) then MarkedAvailable(before, ps[n]) else before
  }

  function Observe(vm: OwnedVM, o: Sight): OwnedVM {
    RefreshMatched(Carry(vm, o.current), o.agent, o.machines, o.now)
  }

  function StepVM(vm: OwnedVM, o: Sight): OwnedVM {
    Observe(PrepareVM(vm, o.current.name, o.prepared), o)
  }

  /** A prepared VM is available and has no Machine; any other VM is as it was. */
  lemma {:induction false} PreparedIsAvailable(vm: OwnedVM, name: string, ps: seq<Preparation>)
    ensures var r := PrepareVM(vm, name, ps);
            && r == vm.(agentRef := r.agentRef, machineRef := r.machineRef, phase := r.phase, reason := r.reason,
                        since := r.since)
            && if exists k :: 0 <= k < |ps| && Names(ps[k], name)
               then r.phase == Available && r.machineRef == None else r == vm
  {
    if ps != [] {
      var n := |ps| - 1;
      PreparedIsAvailable(vm, name, ps[..n]);
      if exists k :: 0 <= k < n && Names(ps[..n][k], name) {
        var k :| 0 <= k < n && Names(ps[..n][k], name);
        assert Names(ps[k], name);
      }
    }
  }

  function After(vm: OwnedVM, os: seq<Sight>): OwnedVM {
    if os == [] then vm else StepVM(After(vm, os[..|os| - 1]), os[|os| - 1])
  }

  ghost predicate AllBound(os: seq<Sight>) {
    forall i :: 0 <= i < |os| ==> os[i].agent.bound
  }

  predicate InPhase(vm: OwnedVM, reason: Reason) {
    vm.phase == Released && vm.reason == reason
  }

  /** Snapshot i listed the VM's Machine m as being deleted. */
  ghost predicate SeenDeleting(vm: OwnedVM, os: seq<Sight>, i: nat, m: string) {
    && i < |os| && m != ""
    && After(vm, os[..i + 1]).machineRef == Some(m)
    && m in os[i].machines && os[i].machines[m]
  }

  /**
   * The Machine that a VM waits for after these sights, the Machine that it still waits for when
   * sight i is taken, and the Machine that sight i concerns, all read off the observed names,
   * listings and preparations. An Agent that names nothing concerns the Machine that is being
   * waited for; a VM that was prepared for another Agent waits for none.
   */
  ghost function WaitsFor(os: seq<Sight>): Option<string>
    decreases |os|, 0
  {
    if os == [] then None
    else
      var n := |os| - 1;
      var m := Named(os, n);
      if m != "" && m in os[n].machines && (StillWaits(os, n).Some? || os[n].machines[m]) then Some(m) else None
  }

  ghost function StillWaits(os: seq<Sight>, i: nat): Option<string>
    requires i < |os|
    decreases i, 1
  {
    if Prepared(os[i]) then None else WaitsFor(os[..i])
  }

  ghost function Named(os: seq<Sight>, i: nat): string
    requires i < |os|
    decreases i, 2
  {
    if os[i].agent.machineName != "" then os[i].agent.machineName
    else if StillWaits(os, i).Some? then StillWaits(os, i).value
    else ""
  }

  /** Some sight that concerned Machine m listed it as being deleted. */
  ghost predicate ConcernedDeleting(os: seq<Sight>, m: string) {
    exists i :: 0 <= i < |os| && Named(os, i) == m && m in os[i].machines && os[i].machines[m]
  }

  /** With a bound Agent only three outcomes are possible. */
  lemma BoundOutcomes(vm: OwnedVM, o: Sight)
    requires o.agent.bound
    ensures var r := Observe(vm, o);
            && (r.phase == Bound || InPhase(r, MachineDeleting) || InPhase(r, MachineDeleted))
            && (InPhase(r, MachineDeleted) ==>
                  InPhase(vm, MachineDeleting) && (Unnamed(r.machineRef) || r.machineRef.value !in o.machines))
            && (InPhase(r, MachineDeleting) ==> !Unnamed(r.machineRef))
            && (InPhase(r, MachineDeleting) && !InPhase(vm, MachineDeleting) ==>
                  r.machineRef.value in o.machines && o.machines[r.machineRef.value])
            && (InPhase(vm, MachineDeleting) && !Unnamed(vm.machineRef) ==>
                  r.machineRef == if o.agent.machineName == "" then vm.machineRef else Some(o.agent.machineName))
  {}

  /** What the VM records is determined by the observed names and listings. */
  lemma {:induction false} RecordedFromObserved(vm: OwnedVM, os: seq<Sight>)
    requires vm.phase == Bound && AllBound(os)
    ensures var r := After(vm, os);
            && (InPhase(r, MachineDeleting) <==> WaitsFor(os).Some?)
            && (WaitsFor(os).Some? ==> r.machineRef == WaitsFor(os) && WaitsFor(os) != Some(""))
    ensures os != [] ==>
              var n := |os| - 1;
              var r := After(vm, os);
              && r.machineRef == (if Named(os, n) == "" then None else Some(Named(os, n)))
              && (InPhase(r, MachineDeleted) <==> StillWaits(os, n).Some? && Named(os, n) !in os[n].machines)
  {
    hide WaitsFor, Named, StillWaits, StepVM, Prepared;
    if os == [] {
      NothingObserved();
    } else {
      var n := |os| - 1;
      RecordedFromObserved(vm, os[..n]);
      StepFromObserved(After(vm, os[..n]), os[n], WaitsFor(os[..n]));
      LastObserved(os);
      hide InPhase;
    }
  }

  lemma NothingObserved()
    ensures WaitsFor([]) == None
  {}

  /** What the last sight adds. */
  lemma LastObserved(os: seq<Sight>)
    requires os != []
    ensures var n := |os| - 1;
            var still := if Prepared(os[n]) then None else WaitsFor(os[..n]);
            && StillWaits(os, n) == still
            && Named(os, n) == (if os[n].agent.machineName != "" then os[n].agent.machineName
                                else if still.Some? then still.value else "")
            && WaitsFor(os) == if && Named(os, n) != "" && Named(os, n) in os[n].machines
                                  && (still.Some? || os[n].machines[Named(os, n)])
                               then Some(Named(os, n)) else None
  {}

  /** One step, for a VM that waits for the given Machine or for none. */
  lemma StepFromObserved(vm: OwnedVM, o: Sight, waiting: Option<string>)
    requires o.agent.bound && (InPhase(vm, MachineDeleting) <==> waiting.Some?)
    requires waiting.Some? ==> vm.machineRef == waiting && waiting != Some("")
    ensures var still := if Prepared(o) then None else waiting;
            var m := if o.agent.machineName != "" then o.agent.machineName
            else if still.Some? then still.value else "";
            var r := StepVM(vm, o);
            && r.machineRef == (if m == "" then None else Some(m))
            && (InPhase(r, MachineDeleting) <==> m != "" && m in o.machines && (still.Some? || o.machines[m]))
            && (InPhase(r, MachineDeleted) <==> still.Some? && m !in o.machines)
  {
    hide PrepareVM;
    PreparedIsAvailable(vm, o.current.name, o.prepared);
  }

  /** A VM that waits was once seen with a deleting Machine, has been waiting ever since and was not prepared. */
  lemma {:induction false} WaitingMeansSeenDeleting(vm: OwnedVM, os: seq<Sight>) returns (i: nat, m: string)
    requires vm.phase == Bound && AllBound(os) && WaitsFor(os).Some?
    ensures SeenDeleting(vm, os, i, m)
    ensures forall k :: i < k <= |os| ==> WaitsFor(os[..k]).Some?
    ensures forall k :: i < k < |os| ==> !Prepared(os[k])
  {
    hide After, StepVM, InPhase, Prepared;
    var n := |os| - 1;
    assert os[..n + 1] == os;
    if StillWaits(os, n).Some? {
      i, m := WaitingMeansSeenDeleting(vm, os[..n]);
      assert forall k :: 0 <= k <= n ==> os[..n][..k] == os[..k];
    } else {
      i, m := n, Named(os, n);
      RecordedFromObserved(vm, os);
    }
  }

  /**
   * A VM that keeps matching a bound Agent becomes deletable only after some snapshot showed a
   * Machine of it deleting, from which on it waited and was never prepared for another Agent, and
   * when the latest snapshot does not list the Machine that it refers to by then.
   */
  lemma DeletableMeansMachineWent(vm: OwnedVM, os: seq<Sight>) returns (i: nat, m: string)
    requires vm.phase == Bound && AllBound(os) && InPhase(After(vm, os), MachineDeleted)
    ensures i < |os| - 1 && SeenDeleting(vm, os, i, m)
    ensures forall k :: i < k < |os| ==> WaitsFor(os[..k]).Some? && !Prepared(os[k])
    ensures !Unnamed(After(vm, os).machineRef) && After(vm, os).machineRef.value !in os[|os| - 1].machines
  {
    hide StepVM, WaitsFor, Prepared;
    var n := |os| - 1;
    assert os != [];
    RecordedFromObserved(vm, os);
    RecordedFromObserved(vm, os[..n]);
    i, m := WaitingMeansSeenDeleting(vm, os[..n]);
    assert forall k :: 0 <= k <= n ==> os[..n][..k] == os[..k];
  }

  /**
   * A Machine was seen deleting by the VM if and only if some snapshot listed it as deleting while
   * the Agent named it, or named nothing while the VM waited for it. For the Machine that a
   * deletable VM refers to, this is the exact condition for having been seen deleting.
   */
  lemma SeenDeletingIffConcerned(vm: OwnedVM, os: seq<Sight>, m: string)
    requires vm.phase == Bound && AllBound(os) && m != ""
    ensures (exists i: nat :: SeenDeleting(vm, os, i, m)) <==> ConcernedDeleting(os, m)
  {
    forall i: nat | i < |os| ensures After(vm, os[..i + 1]).machineRef == Some(m) <==> Named(os, i) == m {
      var prefix := os[..i + 1];
      RecordedFromObserved(vm, prefix);
      assert prefix[..i] == os[..i] && prefix[i] == os[i];
    }
    if ConcernedDeleting(os, m) {
      var i :| 0 <= i < |os| && Named(os, i) == m && m in os[i].machines && os[i].machines[m];
      assert SeenDeleting(vm, os, i, m);
    }
  }

  /** The Agent moves to Machine b while Machine a is deleting, and b disappears from the list. */
  lemma MovedAgent(vm: OwnedVM, os: seq<Sight>)
    requires vm.phase == Bound && AllBound(os) && |os| == 3
    requires os[0].agent.machineName == "a" && os[1].agent.machineName == "b" && os[2].agent.machineName == "b"
    requires os[0].machines == map["a" := true] && os[1].machines == map["a" := true, "b" := false]
    requires os[2].machines == map["a" := true] && os[1].prepared == [] && os[2].prepared == []
    ensures InPhase(After(vm, os), MachineDeleted) && After(vm, os).machineRef == Some("b")
    ensures !ConcernedDeleting(os, "b")
  {
    hide After, StepVM, InPhase;
    RecordedFromObserved(vm, os);
    assert WaitsFor(os[..1]).Some? by { assert os[..1][..0] == []; }
    assert WaitsFor(os[..2]).Some? by { assert os[..2][..1] == os[..1]; }
  }

  // ---------- The VM inside the inventory ----------

  /** vm is the only entry of this name. */
  ghost predicate OnlyEntry(vms: seq<OwnedVM>, vm: OwnedVM) {
    exists i :: 0 <= i < |vms| && vms[i] == vm && forall j :: 0 <= j < |vms| && vms[j].name == vm.name ==> j == i
  }

  /** The cycle sees the VM as itself, and it matches a bound Agent. */
  ghost predicate Tracks(vm: OwnedVM, c: Cycle, o: Sight) {
    && vm.name != "" && o.current.name == vm.name && OnlyEntry(c.current, o.current) && !Replaced(vm, o.current)
    && Match(IndexOf(c.agents), Carry(PrepareVM(vm, vm.name, c.prepared), o.current)) == Some(o.agent)
    && o.agent.bound && o.prepared == c.prepared && o.machines == MachineStates(c.machines) && o.now == c.now
  }

  lemma {:induction false} ByNameFindsOnlyEntry(vms: seq<OwnedVM>, vm: OwnedVM)
    requires OnlyEntry(vms, vm) && vm.name != ""
    ensures ByName(vms, vm.name) == Some(vm)
  {
    var n := |vms| - 1;
    var i :| 0 <= i < |vms| && vms[i] == vm && forall j :: 0 <= j < |vms| && vms[j].name == vm.name ==> j == i;
    if i < n {
      assert vms[..n][i] == vm;
      ByNameFindsOnlyEntry(vms[..n], vm);
    }
  }

  lemma {:induction false} DiscoveredNamesAreNew(agents: seq<AgentInfo>, matched: set<string>, known: set<string>,
                                                 machines: map<string, bool>, now: int)
    ensures forall i :: 0 <= i < |Discovered(agents, matched, known, machines, now)| ==>
              Discovered(agents, matched, known, machines, now)[i].name !in known
    ensures forall i :: 0 <= i < |Discovered(agents, matched, known, machines, now)| ==>
              Discovered(agents, matched, known, machines, now)[i].source == DiscoveredAgent
  {
    hide ApplyMachine, ApplyAgent;
    if agents != [] {
      var a := agents[0];
      DiscoveredKeepsNameAndSource(a, machines, now);
      DiscoveredNamesAreNew(agents[1..], matched, known, machines, now);
      DiscoveredNamesAreNew(agents[1..], matched, known + {ObservedHostname(a)}, machines, now);
    }
  }

  lemma DiscoveredKeepsNameAndSource(a: AgentInfo, machines: map<string, bool>, now: int)
    ensures DiscoveredVM(a, machines, now).name == ObservedHostname(a)
    ensures DiscoveredVM(a, machines, now).source == DiscoveredAgent
  {}

  lemma RefreshKeepsName(vm: OwnedVM, ix: Index, machines: map<string, bool>, now: int)
    ensures RefreshVM(vm, ix, machines, now).name == vm.name
  {
    hide Match, RefreshMatched, RefreshUnmatched;
    if Match(ix, vm).Some? {
      MatchedKeepsName(vm, Match(ix, vm).value, machines, now);
    } else {
      UnmatchedKeepsName(vm, machines, now);
    }
  }

  lemma MatchedKeepsName(vm: OwnedVM, a: AgentInfo, machines: map<string, bool>, now: int)
    ensures RefreshMatched(vm, a, machines, now).name == vm.name
  {}

  lemma UnmatchedKeepsName(vm: OwnedVM, machines: map<string, bool>, now: int)
    ensures RefreshUnmatched(vm, machines, now).name == vm.name
  {}

  lemma MergeKeepsName(previous: seq<OwnedVM>, vm: OwnedVM)
    ensures MergeVM(previous, vm).name == vm.name
  {}

  lemma {:induction false} MarkFollowsVM(vms: seq<OwnedVM>, vm: OwnedVM, p: Preparation)
    requires OnlyEntry(vms, vm) && p.hostname != ""
    ensures OnlyEntry(MarkFirst(vms, p), if Names(p, vm.name) then MarkedAvailable(vm, p) else vm)
  {
    var i :| 0 <= i < |vms| && vms[i] == vm && forall j :: 0 <= j < |vms| && vms[j].name == vm.name ==> j == i;
    var k := FirstOfName(vms, p.hostname);
    MarkFirstAt(vms, p, k);
    var r := MarkFirst(vms, p);
    assert r[i] == if Names(p, vm.name) then MarkedAvailable(vm, p) else vm;
    assert forall j :: 0 <= j < |vms| ==> r[j].name == vms[j].name;
  }

  lemma {:induction false} FirstOfName(vms: seq<OwnedVM>, name: string) returns (k: nat)
    ensures k <= |vms| && (forall j :: 0 <= j < k ==> vms[j].name != name) && (k < |vms| ==> vms[k].name == name)
  {
    if vms == [] || vms[0].name == name {
      k := 0;
    } else {
      k := FirstOfName(vms[1..], name);
      k := k + 1;
      assert forall j :: 0 < j < k ==> vms[j] == vms[1..][j - 1];
    }
  }

  /** Preparing Agents moves the tracked entry by its own preparation. */
  lemma {:induction false} PrepareFollowsVM(vms: seq<OwnedVM>, vm: OwnedVM, ps: seq<Preparation>)
    requires OnlyEntry(vms, vm)
    ensures OnlyEntry(Prepare(vms, ps), PrepareVM(vm, vm.name, ps))
  {
    hide OnlyEntry, MarkFirst;
    if ps != [] {
      var n := |ps| - 1;
      PrepareFollowsVM(vms, vm, ps[..n]);
      PreparedIsAvailable(vm, vm.name, ps[..n]);
      if ps[n].hostname != "" {
        MarkFollowsVM(Prepare(vms, ps[..n]), PrepareVM(vm, vm.name, ps[..n]), ps[n]);
      }
    }
  }

  lemma PreparedKeepsIdentity(vm: OwnedVM, ps: seq<Preparation>, current: OwnedVM)
    ensures var r := PrepareVM(vm, vm.name, ps);
            r.name == vm.name && (Replaced(r, current) <==> Replaced(vm, current))
  {
    PreparedIsAvailable(vm, vm.name, ps);
  }

  /** One cycle moves the tracked entry by its own step and leaves it the only one of its name. */
  lemma StepFollowsVM(recorded: seq<OwnedVM>, vm: OwnedVM, c: Cycle, o: Sight)
    requires OnlyEntry(recorded, vm) && Tracks(vm, c, o)
    ensures OnlyEntry(Step(recorded, c), StepVM(vm, o)) && StepVM(vm, o).name == vm.name
  {
    var before, known := PrepareVM(vm, vm.name, c.prepared), Prepare(recorded, c.prepared);
    hide Match, IndexOf, MachineStates, Discovered, RefreshMatched, RefreshUnmatched, Carry, Previous, Replaced,
         Merge, RefreshAll, PrepareVM, Prepare;
    PrepareFollowsVM(recorded, vm, c.prepared);
    PreparedKeepsIdentity(vm, c.prepared, o.current);
    var i :| 0 <= i < |c.current| && c.current[i] == o.current
             && forall j :: 0 <= j < |c.current| && c.current[j].name == o.current.name ==> j == i;
    var ix := IndexOf(c.agents);
    var merged := Merge(known, c.current);
    TrackedMerge(known, before, o.current);
    var refreshed := RefreshAll(merged, ix, o.machines, c.now);
    assert refreshed[i] == StepVM(vm, o);
    forall j | 0 <= j < |refreshed| ensures refreshed[j].name == c.current[j].name {
      MergeKeepsName(known, c.current[j]);
      RefreshKeepsName(merged[j], ix, o.machines, c.now);
    }
    MergeKeepsName(known, c.current[i]);
    assert merged[i].name in KnownNames(merged);
    DiscoveredNamesAreNew(c.agents, MatchedNames(merged, ix), KnownNames(merged), o.machines, c.now);
    var r := Step(recorded, c);
    assert r[i] == StepVM(vm, o);
  }

  lemma TrackedMerge(recorded: seq<OwnedVM>, vm: OwnedVM, current: OwnedVM)
    requires OnlyEntry(recorded, vm) && vm.name != "" && current.name == vm.name && !Replaced(vm, current)
    ensures MergeVM(recorded, current) == Carry(vm, current)
  {
    ByNameFindsOnlyEntry(recorded, vm);
  }

  /** Every cycle tracks the VM. */
  ghost predicate Follows(vm: OwnedVM, cs: seq<Cycle>, os: seq<Sight>) {
    |cs| == |os| && forall k :: 0 <= k < |cs| ==> Tracks(After(vm, os[..k]), cs[k], os[k])
  }

  lemma {:induction false} CyclesFollowVM(recorded: seq<OwnedVM>, vm: OwnedVM, cs: seq<Cycle>, os: seq<Sight>)
    requires OnlyEntry(recorded, vm) && Follows(vm, cs, os)
    ensures OnlyEntry(Cycles(recorded, cs), After(vm, os)) && After(vm, os).name == vm.name && AllBound(os)
    decreases |cs|
  {
    hide OnlyEntry, Tracks, Step, StepVM, PrepareVM;
    if cs != [] {
      var n := |cs| - 1;
      forall k | 0 <= k < n ensures Tracks(After(vm, os[..n][..k]), cs[..n][k], os[..n][k]) {
        assert os[..n][..k] == os[..k];
      }
      CyclesFollowVM(recorded, vm, cs[..n], os[..n]);
      assert Tracks(After(vm, os[..n]), cs[n], os[n]);
      StepFollowsVM(Cycles(recorded, cs[..n]), After(vm, os[..n]), cs[n], os[n]);
      TrackedIsBound(After(vm, os[..n]), cs[n], os[n]);
    }
  }

  lemma TrackedIsBound(vm: OwnedVM, c: Cycle, o: Sight)
    requires Tracks(vm, c, o)
    ensures o.agent.bound
  {}

  /**
   * The planner selects a VM that stayed with a bound Agent only after a Machine of it was seen
   * deleting, since when it was not prepared for another Agent, and while the Machine that it
   * refers to is not listed; that Machine itself was seen deleting if and only if the observations
   * say so.
   */
  lemma SelectedOnlyAfterMachineDeletion(recorded: seq<OwnedVM>, vm: OwnedVM, cs: seq<Cycle>, os: seq<Sight>,
                                         target: OwnedVM, agents: seq<AgentInfo>, demand: Demand, now: int)
    returns (i: nat, m: string)
    requires OnlyEntry(recorded, vm) && vm.phase == Bound && Follows(vm, cs, os)
    requires target in Cycles(recorded, cs) && target.name == vm.name && Justified(target, agents, demand, now)
    ensures i < |os| - 1 && SeenDeleting(vm, os, i, m) && forall k :: i < k < |os| ==> !Prepared(os[k])
    ensures !Unnamed(target.machineRef) && target.machineRef.value !in os[|os| - 1].machines
    ensures (exists j: nat :: SeenDeleting(vm, os, j, target.machineRef.value)) <==>
              ConcernedDeleting(os, target.machineRef.value)
  {
    hide Tracks, After, StepVM, Justified, InPhase, Cycles, SeenDeleting, ConcernedDeleting, Prepared;
    CyclesFollowVM(recorded, vm, cs, os);
    assert target == After(vm, os) by { OnlyOneOfName(Cycles(recorded, cs), After(vm, os), target); }
    OnlyDeletedSelected(vm, os, agents, demand, now);
    i, m := DeletableMeansMachineWent(vm, os);
    SeenDeletingIffConcerned(vm, os, target.machineRef.value);
  }

  lemma OnlyOneOfName(vms: seq<OwnedVM>, vm: OwnedVM, target: OwnedVM)
    requires OnlyEntry(vms, vm) && target in vms && target.name == vm.name
    ensures target == vm
  {}

  /** With a bound Agent the only reason to select a VM is that its Machine went. */
  lemma OnlyDeletedSelected(vm: OwnedVM, os: seq<Sight>, agents: seq<AgentInfo>, demand: Demand, now: int)
    requires vm.phase == Bound && AllBound(os) && Justified(After(vm, os), agents, demand, now)
    ensures InPhase(After(vm, os), MachineDeleted)
  {
    if os != [] {
      hide StepVM;
      var o := os[|os| - 1];
      BoundOutcomes(PrepareVM(After(vm, os[..|os| - 1]), o.current.name, o.prepared), o);
    }
  }

  /** The inventory of one VM and the Agent that shares its BIOS UUID. */
  function SingleCycle(vm: OwnedVM, agent: AgentInfo, machines: seq<MachineInfo>, now: int): Cycle {
    Cycle([], [vm], [agent], machines, now)
  }

  lemma SingleMatches(vm: OwnedVM, agent: AgentInfo)
    requires vm.biosUUID != "" && agent.biosUUID == vm.biosUUID
    ensures Match(IndexOf([agent]), vm) == Some(agent)
  {
    hide NamesOf, Compatible;
    assert [agent][..0] == [];
    assert SubIndexOf(BIOS, [agent]) == AddUnique(SubIndexOf(BIOS, []), agent.biosUUID, agent);
  }

  lemma ObserveKeepsIdentity(vm: OwnedVM, o: Sight)
    requires o.current.biosUUID != "" && o.agent.biosUUID == o.current.biosUUID && o.current.ownerUID == vm.ownerUID
    ensures var r := Observe(vm, o);
            && r.name == o.current.name && r.biosUUID == o.current.biosUUID && r.ownerUID == vm.ownerUID
            && (o.current.source != Unset ==> r.source == o.current.source)
  {
    VmRefresh.MatchedIdentity(Carry(vm, o.current), o.agent, o.machines, o.now);
    hide RefreshMatched;
  }

  lemma SingleTracked(seen: OwnedVM, vm: OwnedVM, agent: AgentInfo, machines: seq<MachineInfo>, now: int)
    requires vm.name != "" && vm.biosUUID != "" && agent.bound && agent.biosUUID == vm.biosUUID
    requires seen.name == vm.name && seen.biosUUID == vm.biosUUID && seen.ownerUID == vm.ownerUID
    ensures Tracks(seen, SingleCycle(vm, agent, machines, now), Sight([], vm, agent, MachineStates(machines), now))
  {
    hide Match, IndexOf, MachineStates;
    var c := SingleCycle(vm, agent, machines, now);
    assert c.current[0] == vm && OnlyEntry(c.current, vm);
    SingleMatches(Carry(seen, vm), agent);
  }

  /** Machine a is deleting; the Agent moves to Machine b, which then is not listed. */
  function MovingCycles(vm: OwnedVM, agent: AgentInfo): seq<Cycle> {
    [SingleCycle(vm, agent.(machineName := "a"), [MachineInfo("a", true)], 0),
     SingleCycle(vm, agent.(machineName := "b"), [MachineInfo("a", true), MachineInfo("b", false)], 1),
     SingleCycle(vm, agent.(machineName := "b"), [MachineInfo("a", true)], 2)]
  }

  function SightOf(c: Cycle): Sight
    requires |c.current| == 1 && |c.agents| == 1
  {
    Sight(c.prepared, c.current[0], c.agents[0], MachineStates(c.machines), c.now)
  }

  /**
   * The planner can select a VM with a bound Agent because of a Machine that was never seen
   * deleting: every VM with a known BIOS UUID has such a run of the whole inventory.
   */
  lemma SelectedForMachineNeverSeenDeleting(vm: OwnedVM, agent: AgentInfo) returns (os: seq<Sight>)
    requires vm.phase == Bound && Eligible(vm) && vm.source != Unset && vm.biosUUID != ""
    requires agent.bound && agent.biosUUID == vm.biosUUID
    ensures var cs := MovingCycles(vm, agent);
            && Follows(vm, cs, os) && After(vm, os) in Cycles([vm], cs) && After(vm, os).name == vm.name
            && MachineGone(After(vm, os)) && After(vm, os).machineRef == Some("b")
    ensures forall i: nat :: !SeenDeleting(vm, os, i, "b")
  {
    var cs := MovingCycles(vm, agent);
    os := [SightOf(cs[0]), SightOf(cs[1]), SightOf(cs[2])];
    MovingSights(vm, agent, cs, os);
    assert [vm][0] == vm && OnlyEntry([vm], vm);
    hide Tracks, After, StepVM, MovingCycles, Cycles, MachineStates;
    CyclesFollowVM([vm], vm, cs, os);
    MovedAgent(vm, os);
    SeenDeletingIffConcerned(vm, os, "b");
  }

  lemma MovingSights(vm: OwnedVM, agent: AgentInfo, cs: seq<Cycle>, os: seq<Sight>)
    requires vm.phase == Bound && Eligible(vm) && vm.source != Unset && vm.biosUUID != ""
    requires agent.bound && agent.biosUUID == vm.biosUUID
    requires cs == MovingCycles(vm, agent) && os == [SightOf(cs[0]), SightOf(cs[1]), SightOf(cs[2])]
    ensures Follows(vm, cs, os) && Eligible(After(vm, os))
    ensures os[0].machines == map["a" := true] && os[1].machines == map["a" := true, "b" := false]
    ensures os[2].machines == map["a" := true]
  {
    hide Tracks, Observe;
    var v1, v2 := StepVM(vm, os[0]), StepVM(StepVM(vm, os[0]), os[1]);
    ObserveKeepsIdentity(vm, os[0]);
    ObserveKeepsIdentity(v1, os[1]);
    ObserveKeepsIdentity(v2, os[2]);
    SingleTracked(vm, vm, cs[0].agents[0], cs[0].machines, 0);
    SingleTracked(v1, vm, cs[1].agents[0], cs[1].machines, 1);
    SingleTracked(v2, vm, cs[2].agents[0], cs[2].machines, 2);
    assert os[..0] == [] && os[..1][..0] == [] && os[..2][..1] == os[..1] && os[..3] == os;
    assert After(vm, os[..1]) == v1 && After(vm, os[..2]) == v2 && After(vm, os) == StepVM(v2, os[2]);
    assert cs[1].machines[..1] == [MachineInfo("a", true)] && cs[1].machines[..1][..0] == [];
    assert MachineStates(cs[0].machines) == map["a" := true] by { assert cs[0].machines[..0] == []; }
    assert MachineStates(cs[1].machines) == map["a" := true]["b" := false];
  }

  /** Bound VMs, VMs still waiting for their Agent, and discovered-only VMs are never selected. */
  lemma NeverSelected(vm: OwnedVM, agents: seq<AgentInfo>, demand: Demand, now: int)
    requires vm.phase == Bound || vm.phase == ProvisioningVM || vm.source == DiscoveredAgent
    ensures !Justified(vm, agents, demand, now)
  {}

  /** A host known only through its Agent enters the inventory as discovered and stays out of every plan. */
  lemma DiscoveredNeverSelected(vms: seq<OwnedVM>, agents: seq<AgentInfo>, machines: seq<MachineInfo>, now: int,
                                i: nat, demand: Demand)
    requires |vms| <= i < |Refresh(vms, agents, machines, now)|
    ensures !Justified(Refresh(vms, agents, machines, now)[i], agents, demand, now)
  {
    var ix := IndexOf(agents);
    DiscoveredNamesAreNew(agents, MatchedNames(vms, ix), KnownNames(vms), MachineStates(machines), now);
  }

  // ---------- VMs whose Agent is released ----------

  /**
   * An Agent that lets go of its VM does not make it deletable by itself: the VM keeps the Machine
   * that it had, and is marked as deleted only when that Machine is no longer listed.
   */
  lemma ReleasedVMWaitsForMachine(vm: OwnedVM, o: Sight)
    requires !o.agent.bound && o.agent.machineName == "" && !Unnamed(vm.machineRef) &&
             (vm.phase == Bound || vm.phase == Released)
    ensures var r := Observe(vm, o);
            && r.phase == Released && r.machineRef == vm.machineRef
            && (r.reason == MachineDeleted <==> vm.machineRef.value !in o.machines)
            && (vm.machineRef.value in o.machines && o.machines[vm.machineRef.value] ==> r.reason == MachineDeleting)
  {}

  /** Merging carries over the whole lifecycle of a VM unless another VM took over its name. */
  lemma MergeCarriesLifecycle(recorded: seq<OwnedVM>, vm: OwnedVM, current: OwnedVM)
    requires OnlyEntry(recorded, vm) && vm.name != "" && current.name == vm.name
    ensures var m := MergeVM(recorded, current);
            if Replaced(vm, current) then m == current
            else && m.phase == vm.phase && m.reason == vm.reason && m.since == vm.since
                 && m.agentRef == vm.agentRef && m.machineRef == vm.machineRef
                 && !Replaced(vm, m) && (m.biosUUID == "" ==> vm.biosUUID == "") && (m.mac == "" ==> vm.mac == "")
  {
    ByNameFindsOnlyEntry(recorded, vm);
  }
}
