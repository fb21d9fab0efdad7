/**
 * Deleting a VM against CAPI reserving its Agent. The operator unapproves and annotates every
 * associated Agent under its resourceVersion before it destroys the VM; a binder reserves only
 * approved Agents, also under the resourceVersion. Any number of deleters, approvers and binders
 * are interleaved API call by API call.
 */
module VmDeletion {
  import opened Common
  import opened AgentMatching

  /** An Agent object. bound: a machine-ref label or a ClusterDeployment is set. */
  datatype Host = Host(uid: nat, version: nat, approved: bool, cleanup: bool, bound: bool, info: AgentInfo)

  type Hosts = map<string, Host>

  datatype Copy = Copy(name: string, host: Host)

  /**
   * One prepareVMDeletion, DeleteVM, deleteVMAgents sequence.
   * - done: the listed Agents that were unapproved and annotated so far
   */
  datatype Deleter =
    | Checked(vm: OwnedVM)
    | Preparing(vm: OwnedVM, listed: Hosts, done: set<string>)
    | Destroyed(vm: OwnedVM)
    | Finishing(vm: OwnedVM, listed: Hosts)

  /** clock gives out UIDs and resourceVersions; neither is ever reused. */
  datatype State = State(
    hosts: Hosts,
    machines: set<string>,
    clock: nat,
    deleters: map<nat, Deleter>,
    approvers: map<nat, Copy>,
    binders: map<nat, Copy>)

  const EMPTY := State(map[], {}, 0, map[], map[], map[])

  datatype Action =
    // Assisted Service, CAPI and users
    | HostAppears(name: string, approved: bool, bound: bool, info: AgentInfo)
    | HostVanishes(name: string)
    | InventoryChanges(name: string, info: AgentInfo)
    | Unbind(name: string)
    | MachinesChange(machines: set<string>)
    // CAPI provider
    | BinderReads(p: nat, name: string)
    | Bind(p: nat)
    // patchDiscoveredAgent
    | ApproverReads(p: nat, name: string)
    | Approve(p: nat, approve: bool)
    // prepareVMDeletion, DeleteVM, deleteVMAgents
    | CheckMachine(p: nat, vm: OwnedVM)
    | ListHosts(p: nat)
    | Unapprove(p: nat, name: string)
    | DestroyVM(p: nat)
    | RelistHosts(p: nat)
    | DeleteHost(p: nat, name: string)
    | GiveUp(p: nat)

  /** The copy is still the stored object. */
  predicate Current(s: State, name: string, copy: Host) {
    name in s.hosts && s.hosts[name].version == copy.version
  }

  /** agentsForVM: every Agent of the namespace that is associated with the VM. */
  function HostsOf(hosts: Hosts, vm: OwnedVM): Hosts {
    map n | n in hosts && Associated(vm, hosts[n].info) :: hosts[n]
  }

  /** The VM and the Agent are the same hardware. */
  ghost predicate SharesHardware(vm: OwnedVM, a: AgentInfo) {
    (vm.biosUUID != "" && vm.biosUUID == a.biosUUID) || (vm.mac != "" && vm.mac == a.mac)
  }

  /**
   * What is listed for a VM: every Agent on its hardware, whatever its name; and where hardware
   * cannot be compared, the Agent that the VM records or whose hostname it carries. Nothing else.
   */
  lemma HostsOfIff(hosts: Hosts, vm: OwnedVM, n: string)
    ensures n in HostsOf(hosts, vm) <==>
              && n in hosts
              && (|| SharesHardware(vm, hosts[n].info)
                  || (&& (vm.biosUUID == "" || hosts[n].info.biosUUID == "")
                      && (vm.mac == "" || hosts[n].info.mac == "")
                      && (|| vm.agentRef == Some(hosts[n].info.name)
                          || vm.name == (if hosts[n].info.hostname != "" then hosts[n].info.hostname
                                         else hosts[n].info.inventoryHostname))))
    ensures n in HostsOf(hosts, vm) ==> HostsOf(hosts, vm)[n] == hosts[n]
  {
    if n in hosts {
      AssociatedIff(vm, hosts[n].info);
    }
  }

  predicate MachineBlocks(s: State, vm: OwnedVM) {
    vm.machineRef.Some? && vm.machineRef.value != "" && vm.machineRef.value in s.machines
  }

  predicate Enabled(s: State, a: Action) {
    match a
    case HostAppears(n, _, _, _) => n !in s.hosts
    case HostVanishes(n) => n in s.hosts
    case InventoryChanges(n, _) => n in s.hosts
    case Unbind(n) => n in s.hosts
    case MachinesChange(_) => true
    case BinderReads(p, n) => n in s.hosts
    case Bind(p) => p in s.binders && s.binders[p].host.approved && Current(s, s.binders[p].name, s.binders[p].host)
    case ApproverReads(p, n) => n in s.hosts
    case Approve(p, _) =>
      && p in s.approvers
      && !s.approvers[p].host.cleanup && !s.approvers[p].host.bound
      && Current(s, s.approvers[p].name, s.approvers[p].host)
    case CheckMachine(p, vm) => p !in s.deleters && !MachineBlocks(s, vm)
    case ListHosts(p) => p in s.deleters && s.deleters[p].Checked?
    case Unapprove(p, n) =>
      && p in s.deleters && s.deleters[p].Preparing?
      && n in s.deleters[p].listed && n !in s.deleters[p].done
      && !s.deleters[p].listed[n].bound
      && Current(s, n, s.deleters[p].listed[n])
    case DestroyVM(p) => p in s.deleters && s.deleters[p].Preparing? && s.deleters[p].listed.Keys <= s.deleters[p].done
    case RelistHosts(p) => p in s.deleters && s.deleters[p].Destroyed?
    case DeleteHost(p, n) =>
      && p in s.deleters && s.deleters[p].Finishing?
      && n in s.deleters[p].listed && !s.deleters[p].listed[n].bound
      && Current(s, n, s.deleters[p].listed[n]) && s.hosts[n].uid == s.deleters[p].listed[n].uid
    case GiveUp(p) => p in s.deleters
  }

  /** Every write gets a new resourceVersion. */
  function Write(s: State, name: string, h: Host): State {
    s.(hosts := s.hosts[name := h.(version := s.clock)], clock := s.clock + 1)
  }

  function Next(s: State, a: Action): State
    requires Enabled(s, a)
  {
    match a
    case HostAppears(n, approved, bound, info) => Write(s, n, Host(s.clock, s.clock, approved, false, bound, info))
    case HostVanishes(n) => s.(hosts := s.hosts - {n})
    case InventoryChanges(n, info) => Write(s, n, s.hosts[n].(info := info))
    case Unbind(n) => Write(s, n, s.hosts[n].(bound := false))
    case MachinesChange(ms) => s.(machines := ms)
    case BinderReads(p, n) => s.(binders := s.binders[p := Copy(n, s.hosts[n])])
    case Bind(p) => Write(s, s.binders[p].name, s.hosts[s.binders[p].name].(bound := true))
    case ApproverReads(p, n) => s.(approvers := s.approvers[p := Copy(n, s.hosts[n])])
    case Approve(p, approve) =>
      var h := s.hosts[s.approvers[p].name];
      Write(s, s.approvers[p].name, h.(approved := h.approved || approve))
    case CheckMachine(p, vm) => s.(deleters := s.deleters[p := Checked(vm)])
    case ListHosts(p) =>
      var vm := s.deleters[p].vm;
      s.(deleters := s.deleters[p := Preparing(vm, HostsOf(s.hosts, vm), {})])
    case Unapprove(p, n) =>
      var d := s.deleters[p];
      Write(s.(deleters := s.deleters[p := d.(done := d.done + {n})]), n,
          s.hosts[n].(approved := false, cleanup := true))
    case DestroyVM(p) => s.(deleters := s.deleters[p := Destroyed(s.deleters[p].vm)])
    case RelistHosts(p) =>
      var vm := s.deleters[p].vm;
      s.(deleters := s.deleters[p := Finishing(vm, HostsOf(s.hosts, vm))])
    case DeleteHost(p, n) => s.(hosts := s.hosts - {n})
    case GiveUp(p) => s.(deleters := s.deleters - {p})
  }

  // ---------- The invariant ----------

  /** A resourceVersion identifies one content. */
  ghost predicate CopyOK(s: State, name: string, copy: Host) {
    copy.version < s.clock && (Current(s, name, copy) ==> s.hosts[name] == copy)
  }

  /** The Agent object that was listed is gone, or it can no longer be reserved. */
  ghost predicate Sealed(hosts: Hosts, name: string, uid: nat) {
    name in hosts && hosts[name].uid == uid ==> hosts[name].cleanup && !hosts[name].approved && !hosts[name].bound
  }

  ghost predicate HostOK(s: State, name: string)
    requires name in s.hosts
  {
    var h := s.hosts[name];
    h.version < s.clock && h.uid < s.clock && (h.cleanup ==> !h.approved && !h.bound)
  }

  ghost predicate DeleterOK(s: State, d: Deleter) {
    match d
    case Checked(_) => true
    case Preparing(_, listed, done) =>
      && done <= listed.Keys
      && (forall n :: n in listed ==> listed[n].uid < s.clock)
      && (forall n :: n in listed && n !in done ==> CopyOK(s, n, listed[n]))
      && (forall n :: n in done ==> Sealed(s.hosts, n, listed[n].uid))
    case Destroyed(_) => true
    case Finishing(_, listed) => forall n :: n in listed ==> CopyOK(s, n, listed[n])
  }

  ghost predicate Inv(s: State) {
    && (forall n :: n in s.hosts ==> HostOK(s, n))
    && (forall p :: p in s.approvers ==> CopyOK(s, s.approvers[p].name, s.approvers[p].host))
    && (forall p :: p in s.binders ==> CopyOK(s, s.binders[p].name, s.binders[p].host))
    && (forall p :: p in s.deleters ==> DeleterOK(s, s.deleters[p]))
  }

  /** A write that keeps the UID and respects the seal disturbs no copy and no seal. */
  lemma WriteKeeps(s: State, n: string, h: Host)
    requires Inv(s) && h.uid <= s.clock && (h.cleanup ==> !h.approved && !h.bound)
    requires n in s.hosts ==> h.uid == s.hosts[n].uid && (s.hosts[n].cleanup ==> h.cleanup)
    requires n !in s.hosts ==> h.uid == s.clock
    ensures Inv(Write(s, n, h))
  {}

  lemma RemoveKeeps(s: State, n: string)
    requires Inv(s)
    ensures Inv(s.(hosts := s.hosts - {n}))
  {}

  /** Once its copy was written, the Agent counts as done for this deleter. */
  lemma DoneIsSealed(s: State, p: nat, n: string)
    requires Inv(s) && p in s.deleters && s.deleters[p].Preparing? && n in s.deleters[p].listed
    requires n in s.hosts && s.hosts[n].cleanup
    ensures var d := s.deleters[p]; Inv(s.(deleters := s.deleters[p := d.(done := d.done + {n})]))
  {}

  lemma UnapproveKeeps(s: State, p: nat, n: string)
    requires Inv(s) && Enabled(s, Unapprove(p, n))
    ensures Inv(Next(s, Unapprove(p, n)))
  {
    var d := s.deleters[p];
    var h := s.hosts[n].(approved := false, cleanup := true);
    assert DeleterOK(s, d) && CopyOK(s, n, d.listed[n]) && HostOK(s, n);
    hide Inv;
    WriteKeeps(s, n, h);
    DoneIsSealed(Write(s, n, h), p, n);
  }

  lemma HostStepKeeps(s: State, a: Action)
    requires Inv(s) && Enabled(s, a)
    requires a.HostAppears? || a.HostVanishes? || a.InventoryChanges? || a.Unbind? || a.Bind? || a.Approve? ||
             a.DeleteHost?
    ensures Inv(Next(s, a))
  {
    match a
    case HostAppears(n, approved, bound, info) => WriteKeeps(s, n,
         Host(s.clock, s.clock, approved, false, bound, info));
    case HostVanishes(n) => RemoveKeeps(s, n);
    case InventoryChanges(n, info) =>
      assert HostOK(s, n);
      WriteKeeps(s, n, s.hosts[n].(info := info));
    case Unbind(n) =>
      assert HostOK(s, n);
      WriteKeeps(s, n, s.hosts[n].(bound := false));
    case Bind(p) =>
      var c := s.binders[p];
      assert HostOK(s, c.name) && CopyOK(s, c.name, c.host);
      WriteKeeps(s, c.name, s.hosts[c.name].(bound := true));
    case Approve(p, approve) =>
      var c := s.approvers[p];
      assert HostOK(s, c.name) && CopyOK(s, c.name, c.host);
      WriteKeeps(s, c.name, s.hosts[c.name].(approved := s.hosts[c.name].approved || approve));
    case DeleteHost(p, n) => RemoveKeeps(s, n);
  }

  /** Reading, listing and giving up change only what one process remembers. */
  lemma ProcessStepKeeps(s: State, a: Action)
    requires Inv(s) && Enabled(s, a)
    requires a.CheckMachine? || a.DestroyVM? || a.GiveUp?
    ensures Inv(Next(s, a))
  {
    var s' := Next(s, a);
    forall p | p in s'.deleters ensures DeleterOK(s', s'.deleters[p]) {
      if p in s.deleters && s'.deleters[p] == s.deleters[p] {
        assert DeleterOK(s, s.deleters[p]);
      } else {
        assert forall n :: n in s.hosts ==> HostOK(s, n);
      }
    }
  }

  lemma ListStepKeeps(s: State, a: Action)
    requires Inv(s) && Enabled(s, a) && (a.ListHosts? || a.RelistHosts?)
    ensures Inv(Next(s, a))
  {
    var s' := Next(s, a);
    forall p | p in s'.deleters ensures DeleterOK(s', s'.deleters[p]) {
      if p in s.deleters && s'.deleters[p] == s.deleters[p] {
        assert DeleterOK(s, s.deleters[p]);
      } else {
        assert forall n :: n in s.hosts ==> HostOK(s, n);
      }
    }
  }

  lemma ReadStepKeeps(s: State, a: Action)
    requires Inv(s) && Enabled(s, a) && (a.MachinesChange? || a.BinderReads? || a.ApproverReads?)
    ensures Inv(Next(s, a))
  {}

  lemma StepKeeps(s: State, a: Action)
    requires Inv(s) && Enabled(s, a)
    ensures Inv(Next(s, a))
  {
    hide Inv, Enabled, Next;
    if a.HostAppears? || a.HostVanishes? || a.InventoryChanges? || a.Unbind? || a.Bind? || a.Approve? || a.DeleteHost? {
      HostStepKeeps(s, a);
    } else if a.Unapprove? {
      UnapproveKeeps(s, a.p, a.name);
    } else if a.MachinesChange? || a.BinderReads? || a.ApproverReads? {
      ReadStepKeeps(s, a);
    } else if a.ListHosts? || a.RelistHosts? {
      ListStepKeeps(s, a);
    } else {
      ProcessStepKeeps(s, a);
    }
  }

  // ---------- Whole runs ----------

  function Run(s: State, log: seq<Action>): Option<State>
    decreases |log|
  {
    if log == [] then Some(s)
    else if Enabled(s, log[0]) then Run(Next(s, log[0]), log[1..])
    else None
  }

  ghost predicate Reachable(s: State) {
    exists log :: Run(EMPTY, log) == Some(s)
  }

  lemma {:induction false} RunKeeps(s: State, log: seq<Action>, s': State)
    requires Inv(s) && Run(s, log) == Some(s')
    ensures Inv(s')
    decreases |log|
  {
    if log != [] {
      StepKeeps(s, log[0]);
      RunKeeps(Next(s, log[0]), log[1..], s');
    }
  }

  lemma ReachableInv(s: State)
    requires Reachable(s)
    ensures Inv(s)
  {
    var log :| Run(EMPTY, log) == Some(s);
    RunKeeps(EMPTY, log, s);
  }

  lemma {:induction false} RunThen(s: State, log: seq<Action>, mid: State, a: Action)
    requires Run(s, log) == Some(mid) && Enabled(mid, a)
    ensures Run(s, log + [a]) == Some(Next(mid, a))
    decreases |log|
  {
    hide Enabled, Next;
    if log == [] {
      assert [a][1..] == [] && Run(Next(s, a), []) == Some(Next(s, a));
    } else {
      assert (log + [a])[1..] == log[1..] + [a];
      RunThen(Next(s, log[0]), log[1..], mid, a);
    }
  }

  lemma StaysReachable(s: State, a: Action)
    requires Reachable(s) && Enabled(s, a)
    ensures Reachable(Next(s, a))
  {
    var log :| Run(EMPTY, log) == Some(s);
    RunThen(EMPTY, log, s, a);
  }

  /** Some run leads from one state to the other. */
  ghost predicate Leads(s: State, s': State) {
    exists log :: Run(s, log) == Some(s')
  }

  lemma StandsStill(s: State)
    ensures Leads(s, s)
  {
    assert Run(s, []) == Some(s);
  }

  lemma {:induction false} RunConcat(s: State, x: seq<Action>, mid: State, y: seq<Action>, s': State)
    requires Run(s, x) == Some(mid) && Run(mid, y) == Some(s')
    ensures Run(s, x + y) == Some(s')
    decreases |x|
  {
    hide Enabled, Next;
    if x == [] {
      assert x + y == y;
    } else {
      RunConcat(Next(s, x[0]), x[1..], mid, y, s');
      assert (x + y)[1..] == x[1..] + y;
    }
  }

  lemma LeadsOn()
    ensures forall a, b, c :: Leads(a, b) && Leads(b, c) ==> Leads(a, c)
  {
    forall a, b, c | Leads(a, b) && Leads(b, c) ensures Leads(a, c) {
      var x :| Run(a, x) == Some(b);
      var y :| Run(b, y) == Some(c);
      RunConcat(a, x, b, y, c);
    }
  }

  lemma StepLeads(s: State, a: Action)
    requires Enabled(s, a)
    ensures Leads(s, Next(s, a))
  {
    assert Run(s, []) == Some(s);
    RunThen(s, [], s, a);
  }

  /** A VM is destroyed only when every Agent listed for it is gone or sealed: none is bound. */
  lemma NoVMDestroyedWhileBound(s: State, p: nat, n: string)
    requires Reachable(s) && Enabled(s, DestroyVM(p)) && n in s.deleters[p].listed
    ensures Sealed(s.hosts, n, s.deleters[p].listed[n].uid)
  {
    ReachableInv(s);
    assert DeleterOK(s, s.deleters[p]);
  }

  /** Deleter p still works off the list that it was given, or has destroyed the VM. */
  ghost predicate WorksOff(s: State, p: nat, vm: OwnedVM, listed: Hosts) {
    p in s.deleters && (s.deleters[p].Preparing? ==> s.deleters[p].vm == vm && s.deleters[p].listed == listed) &&
    !s.deleters[p].Checked?
  }

  lemma {:induction false} ListIsKept(s: State, log: seq<Action>, s': State, p: nat, vm: OwnedVM, listed: Hosts)
    requires WorksOff(s, p, vm, listed) && Run(s, log) == Some(s') && GiveUp(p) !in log
    ensures WorksOff(s', p, vm, listed)
    decreases |log|
  {
    if log != [] {
      assert log[0] in log && forall a :: a in log[1..] ==> a in log;
      StepKeepsList(s, log[0], p, vm, listed);
      hide Enabled, Next, WorksOff;
      ListIsKept(Next(s, log[0]), log[1..], s', p, vm, listed);
    }
  }

  lemma StepKeepsList(s: State, a: Action, p: nat, vm: OwnedVM, listed: Hosts)
    requires WorksOff(s, p, vm, listed) && Enabled(s, a) && a != GiveUp(p)
    ensures WorksOff(Next(s, a), p, vm, listed)
  {}

  /**
   * When a VM is destroyed, every Agent that ran on its hardware when the deleter listed Agents is
   * gone or sealed, whatever name, hostname or labels it had and whatever happened in between.
   */
  lemma NoHardwareDestroyedWhileBound(s: State, p: nat, log: seq<Action>, s': State, n: string)
    requires Reachable(s) && Enabled(s, ListHosts(p)) && Run(Next(s, ListHosts(p)), log) == Some(s')
    requires GiveUp(p) !in log && Enabled(s', DestroyVM(p))
    requires n in s.hosts && SharesHardware(s.deleters[p].vm, s.hosts[n].info)
    ensures Sealed(s'.hosts, n, s.hosts[n].uid)
  {
    var vm := s.deleters[p].vm;
    var s1 := Next(s, ListHosts(p));
    HostsOfIff(s.hosts, vm, n);
    assert WorksOff(s1, p, vm, HostsOf(s.hosts, vm));
    ListIsKept(s1, log, s', p, vm, HostsOf(s.hosts, vm));
    StaysReachable(s, ListHosts(p));
    RunStaysReachable(s1, log, s');
    NoVMDestroyedWhileBound(s', p, n);
  }

  lemma RunStaysReachable(s: State, log: seq<Action>, s': State)
    requires Reachable(s) && Run(s, log) == Some(s')
    ensures Reachable(s')
  {
    var before :| Run(EMPTY, before) == Some(s);
    RunConcat(EMPTY, before, s, log, s');
  }

  /** An Agent object that is gone never comes back; its name may be used again. */
  ghost predicate Absent(hosts: Hosts, n: string, uid: nat) {
    n in hosts ==> hosts[n].uid != uid
  }

  lemma {:induction false} AbsentForever(s: State, log: seq<Action>, s': State, n: string, uid: nat)
    requires Run(s, log) == Some(s') && uid < s.clock && Absent(s.hosts, n, uid)
    ensures uid < s'.clock && Absent(s'.hosts, n, uid)
    decreases |log|
  {
    if log != [] {
      AbsentForever(Next(s, log[0]), log[1..], s', n, uid);
    }
  }

  lemma StepKeepsSeal(s: State, a: Action, n: string, uid: nat)
    requires Inv(s) && Enabled(s, a) && uid < s.clock && Sealed(s.hosts, n, uid)
    ensures uid < Next(s, a).clock && Sealed(Next(s, a).hosts, n, uid)
  {
    match a
    case Bind(p) => assert CopyOK(s, s.binders[p].name, s.binders[p].host);
    case Approve(p, _) => assert CopyOK(s, s.approvers[p].name, s.approvers[p].host);
    case Unapprove(p, m) => assert DeleterOK(s, s.deleters[p]) && CopyOK(s, m, s.deleters[p].listed[m]);
    case _ =>
  }

  /** No pool, provider or binder can approve or bind a sealed Agent again. */
  lemma {:induction false} SealedForever(s: State, log: seq<Action>, s': State, n: string, uid: nat)
    requires Inv(s) && Run(s, log) == Some(s') && uid < s.clock && Sealed(s.hosts, n, uid)
    ensures Sealed(s'.hosts, n, uid)
    decreases |log|
  {
    hide Inv, Enabled, Next, Sealed;
    if log != [] {
      StepKeepsSeal(s, log[0], n, uid);
      StepKeeps(s, log[0]);
      SealedForever(Next(s, log[0]), log[1..], s', n, uid);
    }
  }

  /** From the first VM destruction on, whatever happens, the Agents listed for it never become bound. */
  lemma DestroyedVMStaysUnbound(s: State, p: nat, log: seq<Action>, s': State, n: string)
    requires Reachable(s) && Enabled(s, DestroyVM(p)) && n in s.deleters[p].listed
    requires Run(s, log) == Some(s')
    ensures n in s'.hosts && s'.hosts[n].uid == s.deleters[p].listed[n].uid ==>
              !s'.hosts[n].bound && !s'.hosts[n].approved
  {
    ReachableInv(s);
    NoVMDestroyedWhileBound(s, p, n);
    assert DeleterOK(s, s.deleters[p]);
    SealedForever(s, log, s', n, s.deleters[p].listed[n].uid);
  }

  /** An Agent object is deleted only while it is not bound. */
  lemma OnlyUnboundHostsDeleted(s: State, p: nat, n: string)
    requires Reachable(s) && Enabled(s, DeleteHost(p, n))
    ensures !s.hosts[n].bound
  {
    ReachableInv(s);
    assert DeleterOK(s, s.deleters[p]) && CopyOK(s, n, s.deleters[p].listed[n]);
  }

  /** A reservation in flight either wins and blocks the deleter, or gets a conflict. */
  lemma ReservationOrDeletion(s: State, p: nat, b: nat, n: string)
    requires Reachable(s) && Enabled(s, Unapprove(p, n)) && Enabled(s, Bind(b)) && s.binders[b].name == n
    ensures !Enabled(Next(s, Bind(b)), Unapprove(p, n))
    ensures !Enabled(Next(s, Unapprove(p, n)), Bind(b))
  {
    ReachableInv(s);
    assert DeleterOK(s, s.deleters[p]) && CopyOK(s, n, s.deleters[p].listed[n]);
    assert CopyOK(s, n, s.binders[b].host);
  }
}
