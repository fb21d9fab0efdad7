/**
 * prepareVMDeletion, DeleteVM and deleteVMAgents as code. Before every API call any other process
 * may act; every call is an action of the protocol in VmDeletion.
 */
module VmDeletionCode {
  import opened Common
  import opened AgentMatching
  import opened VmDeletion

  /** An action of deleter p itself. */
  predicate OwnAction(a: Action, p: nat) {
    (a.CheckMachine? || a.ListHosts? || a.Unapprove? || a.DestroyVM? || a.RelistHosts? || a.DeleteHost? ||
        a.GiveUp?) && a.p == p
  }

  lemma OthersKeepDeleter(s: State, a: Action, p: nat)
    requires Enabled(s, a) && !OwnAction(a, p)
    ensures p in Next(s, a).deleters <==> p in s.deleters
    ensures p in s.deleters ==> Next(s, a).deleters[p] == s.deleters[p]
    ensures s.clock <= Next(s, a).clock
  {}

  lemma SealKept(s: State, a: Action, listed: Hosts)
    requires Reachable(s) && Enabled(s, a) && AllSealed(s, listed)
    ensures AllSealed(Next(s, a), listed)
  {
    ReachableInv(s);
    hide Inv, Enabled, Next;
    forall n | n in listed ensures listed[n].uid < Next(s, a).clock && Sealed(Next(s, a).hosts, n, listed[n].uid) {
      StepKeepsSeal(s, a, n, listed[n].uid);
    }
  }

  /** Every listed Agent is gone, or unapproved, annotated and unbound. */
  ghost predicate AllSealed(s: State, listed: Hosts) {
    forall n :: n in listed ==> listed[n].uid < s.clock && Sealed(s.hosts, n, listed[n].uid)
  }

  /**
   * What the environment answers to the calls of one deletion: whether the reads succeed, which
   * patches and deletes of Agents fail, and whether the provider confirms the destruction. A call
   * that fails may still have landed.
   */
  datatype Answers = Answers(
    machineRead: bool,
    listRead: bool,
    unpatched: set<string>,
    destroyed: bool,
    relistRead: bool,
    undeleted: set<string>)

  datatype Outcome = Done | MachineExists | BoundAgent(name: string) | Conflict(name: string) | CallFailed

  /** The object that was copied is no longer stored under its name. */
  ghost predicate Gone(s: State, listed: Hosts, names: set<string>) {
    forall n :: n in names && n in listed ==> listed[n].uid < s.clock && Absent(s.hosts, n, listed[n].uid)
  }

  lemma GoneStays(s: State, s': State, listed: Hosts, names: set<string>)
    requires Leads(s, s') && Gone(s, listed, names)
    ensures Gone(s', listed, names)
  {
    var log :| Run(s, log) == Some(s');
    forall n | n in names && n in listed ensures listed[n].uid < s'.clock && Absent(s'.hosts, n, listed[n].uid) {
      AbsentForever(s, log, s', n, listed[n].uid);
    }
  }

  class DeletionReconciler {
    const p: nat
    var s: State

    ghost predicate Legal() reads this {
      Reachable(s)
    }

    constructor (id: nat, now: State)
      requires Reachable(now)
      ensures Legal() && p == id && s == now
    {
      p, s := id, now;
    }

    /** One action; what was sealed stays sealed. */
    method Take(a: Action, ghost sealed: Hosts)
      requires Legal() && Enabled(s, a)
      modifies this
      ensures Legal() && s == Next(old(s), a) && Leads(old(s), s)
      ensures AllSealed(old(s), sealed) ==> AllSealed(s, sealed)
    {
      hide Enabled, Next, AllSealed;
      if AllSealed(s, sealed) {
        SealKept(s, a, sealed);
      }
      StepLeads(s, a);
      StaysReachable(s, a);
      s := Next(s, a);
    }

    /** Any number of actions of anybody else. */
    method Interfere(ghost listed: Hosts)
      requires Legal()
      modifies this
      ensures Legal() && Leads(old(s), s)
      ensures p in s.deleters <==> p in old(s.deleters)
      ensures p in s.deleters ==> s.deleters[p] == old(s.deleters[p])
      ensures AllSealed(old(s), listed) ==> AllSealed(s, listed)
    {
      hide Enabled, Next, AllSealed, Leads;
      LeadsOn();
      StandsStill(s);
      var n: nat := *;
      while n > 0
        invariant Legal() && Leads(old(s), s)
        invariant p in s.deleters <==> p in old(s.deleters)
        invariant p in s.deleters ==> s.deleters[p] == old(s.deleters[p])
        invariant AllSealed(old(s), listed) ==> AllSealed(s, listed)
      {
        var a: Action := *;
        if Enabled(s, a) && !OwnAction(a, p) {
          OthersKeepDeleter(s, a, p);
          Take(a, listed);
        }
        n := n - 1;
      }
    }

    method Abandon(ghost sealed: Hosts)
      requires Legal() && p in s.deleters
      modifies this
      ensures Legal() && p !in s.deleters && Leads(old(s), s) && s.hosts == old(s.hosts)
      ensures AllSealed(old(s), sealed) ==> AllSealed(s, sealed)
    {
      hide AllSealed, Leads;
      Take(GiveUp(p), sealed);
    }

    /** Checks the Machine through an uncached read, then lists every Agent associated with the VM. */
    method CheckAndList(vm: OwnedVM, x: Answers) returns (r: Outcome, ghost checked: State)
      requires Legal() && p !in s.deleters
      modifies this
      ensures Legal() && Leads(old(s), checked) && Leads(checked, s)
      ensures match r
              case Done =>
                && p in s.deleters && s.deleters[p] == Preparing(vm, HostsOf(s.hosts, vm), {})
                && (vm.machineRef.Some? && vm.machineRef.value != "" ==> vm.machineRef.value !in checked.machines)
                && (forall n :: n in s.hosts && SharesHardware(vm, s.hosts[n].info) ==> n in s.deleters[p].listed)
              case MachineExists =>
                p !in s.deleters && vm.machineRef.Some? && vm.machineRef.value in checked.machines
              case CallFailed => p !in s.deleters && (!x.machineRead || !x.listRead)
              case _ => false
    {
      hide Leads, HostsOf;
      LeadsOn();
      Interfere(map[]);
      checked := s;
      StandsStill(s);
      if vm.machineRef.Some? && vm.machineRef.value != "" {
        if !x.machineRead {
          return CallFailed, checked;
        }
        if MachineBlocks(s, vm) {
          return MachineExists, checked;
        }
      }
      if !x.listRead {
        return CallFailed, checked;
      }
      Take(CheckMachine(p, vm), map[]);
      Interfere(map[]);
      Take(ListHosts(p), map[]);
      forall n | n in s.hosts && SharesHardware(vm, s.hosts[n].info) ensures n in s.deleters[p].listed {
        HostsOfIff(s.hosts, vm, n);
      }
      return Done, checked;
    }

    /** Unapproves and annotates one listed Agent under its resourceVersion. */
    method Seal(n: string, x: Answers) returns (r: Outcome)
      requires Legal() && p in s.deleters && s.deleters[p].Preparing?
      requires n in s.deleters[p].listed && n !in s.deleters[p].done && !s.deleters[p].listed[n].bound
      modifies this
      ensures Legal() && Leads(old(s), s)
      ensures match r
              case Done => p in s.deleters &&
                   s.deleters[p] == old(s.deleters[p]).(done := old(s.deleters[p]).done + {n})
              case Conflict(m) => p !in s.deleters && m == n && !Current(s, n, old(s.deleters[p]).listed[n])
              case CallFailed => p !in s.deleters && n in x.unpatched
              case _ => false
    {
      hide Leads;
      LeadsOn();
      Interfere(map[]);
      if !Current(s, n, s.deleters[p].listed[n]) {
        Abandon(map[]);
        return Conflict(n);
      }
      var landed: bool := *;
      if n in x.unpatched && !landed {
        Abandon(map[]);
        return CallFailed;
      }
      Take(Unapprove(p, n), map[]);
      if n in x.unpatched {
        Abandon(map[]);
        return CallFailed;
      }
      return Done;
    }

    /**
     * Succeeds only if every Agent that was listed for the VM, in the state `at` in between, is
     * sealed; anything else has its reason in the states passed through or in a failed call.
     */
    method PrepareVMDeletion(vm: OwnedVM, x: Answers) returns (r: Outcome, ghost checked: State, ghost at: State)
      requires Legal() && p !in s.deleters
      modifies this
      ensures Legal() && Leads(old(s), checked) && Leads(checked, at) && Leads(at, s)
      ensures r == Done <==> p in s.deleters
      ensures match r
              case Done =>
                && s.deleters[p].Preparing? && s.deleters[p].vm == vm && s.deleters[p].listed == HostsOf(at.hosts, vm)
                && (vm.machineRef.Some? && vm.machineRef.value != "" ==> vm.machineRef.value !in checked.machines)
                && Enabled(s, DestroyVM(p)) && AllSealed(s, s.deleters[p].listed)
                && (forall n :: n in at.hosts && SharesHardware(vm, at.hosts[n].info) ==>
                      n in s.deleters[p].listed && !at.hosts[n].bound)
              case MachineExists => vm.machineRef.Some? && vm.machineRef.value in checked.machines
              case BoundAgent(n) => n in HostsOf(at.hosts, vm) && at.hosts[n].bound
              case Conflict(n) => n in HostsOf(at.hosts, vm) && !Current(s, n, at.hosts[n])
              case CallFailed =>
                !x.machineRead || !x.listRead || exists n :: n in HostsOf(at.hosts, vm) && n in x.unpatched
    {
      hide AllSealed, Leads, HostsOf, SharesHardware;
      LeadsOn();
      r, checked := CheckAndList(vm, x);
      at := s;
      StandsStill(s);
      if r != Done {
        return;
      }
      ListedAsStored(vm);
      r := SealAll(x);
    }

    /** The loop over the listed Agents; it stops at the first one that is bound or cannot be patched. */
    method SealAll(x: Answers) returns (r: Outcome)
      requires Legal() && p in s.deleters && s.deleters[p].Preparing? && s.deleters[p].done == {}
      modifies this
      ensures Legal() && Leads(old(s), s) && (r == Done <==> p in s.deleters)
      ensures var listed := old(s.deleters[p].listed);
              match r
              case Done =>
                && s.deleters[p].Preparing? && s.deleters[p].vm == old(s.deleters[p].vm) &&
                   s.deleters[p].listed == listed
                && Enabled(s, DestroyVM(p)) && AllSealed(s, listed) && forall n :: n in listed ==> !listed[n].bound
              case BoundAgent(n) => n in listed && listed[n].bound
              case Conflict(n) => n in listed && !Current(s, n, listed[n])
              case CallFailed => exists n :: n in listed && n in x.unpatched
              case MachineExists => false
    {
      hide AllSealed, Leads;
      LeadsOn();
      StandsStill(s);
      var vm, listed := s.deleters[p].vm, s.deleters[p].listed;
      var rest := listed.Keys;
      r := Done;
      while rest != {}
        invariant Legal() && Leads(old(s), s) && rest <= listed.Keys && r == Done
        invariant p in s.deleters && s.deleters[p] == Preparing(vm, listed, listed.Keys - rest)
        invariant forall n :: n in listed && n !in rest ==> !listed[n].bound
      {
        var n :| n in rest;
        if listed[n].bound {
          Abandon(map[]);
          r := BoundAgent(n);
          return;
        }
        r := Seal(n, x);
        if r != Done {
          return;
        }
        rest := rest - {n};
      }
      EverythingSealed();
    }

    lemma ListedAsStored(vm: OwnedVM)
      ensures forall n :: n in HostsOf(s.hosts, vm) ==> n in s.hosts && HostsOf(s.hosts, vm)[n] == s.hosts[n]
    {}

    lemma EverythingSealed()
      requires Legal() && Enabled(s, DestroyVM(p))
      ensures AllSealed(s, s.deleters[p].listed)
    {
      ReachableInv(s);
      assert DeleterOK(s, s.deleters[p]);
    }

    /** Deletes one listed Agent unless it is bound or changed; an absent one is fine. */
    method DeleteVMAgent(n: string, x: Answers, ghost sealed: Hosts) returns (r: Outcome)
      requires Legal() && p in s.deleters && s.deleters[p].Finishing? && n in s.deleters[p].listed
      modifies this
      ensures Legal() && Leads(old(s), s) && p in s.deleters && s.deleters[p] == old(s.deleters[p])
      ensures AllSealed(old(s), sealed) ==> AllSealed(s, sealed)
      ensures match r
              case Done => n !in s.hosts && !s.deleters[p].listed[n].bound
              case BoundAgent(m) => m == n && s.deleters[p].listed[n].bound
              case Conflict(m) => m == n && n in s.hosts && !Current(s, n, s.deleters[p].listed[n])
              case CallFailed => n in x.undeleted
              case _ => false
    {
      hide AllSealed, Leads;
      LeadsOn();
      StandsStill(s);
      var copy := s.deleters[p].listed[n];
      if copy.bound {
        return BoundAgent(n);
      }
      Interfere(sealed);
      if n !in s.hosts {
        return Done;
      }
      if !Current(s, n, copy) {
        return Conflict(n);
      }
      CurrentHasUID(n);
      var landed: bool := *;
      if n !in x.undeleted || landed {
        Take(DeleteHost(p, n), sealed);
      }
      return if n in x.undeleted then CallFailed else Done;
    }

    lemma CurrentHasUID(n: string)
      requires Legal() && p in s.deleters && s.deleters[p].Finishing? && n in s.deleters[p].listed
      requires Current(s, n, s.deleters[p].listed[n])
      ensures s.hosts[n].uid == s.deleters[p].listed[n].uid
    {
      ReachableInv(s);
      assert DeleterOK(s, s.deleters[p]) && CopyOK(s, n, s.deleters[p].listed[n]);
    }

    lemma ListedAreOld()
      requires Legal()
      ensures forall n :: n in s.hosts ==> s.hosts[n].uid < s.clock
    {
      ReachableInv(s);
      assert forall n :: n in s.hosts ==> HostOK(s, n);
    }

    /** Deletes every Agent that is listed for the VM in the state `at`, after the VM is gone. */
    method DeleteVMAgents(x: Answers, ghost sealed: Hosts) returns (r: Outcome, ghost at: State)
      requires Legal() && p in s.deleters && s.deleters[p].Destroyed? && AllSealed(s, sealed)
      modifies this
      ensures Legal() && Leads(old(s), at) && Leads(at, s) && p !in s.deleters && AllSealed(s, sealed)
      ensures var listed := HostsOf(at.hosts, old(s.deleters[p].vm));
              match r
              case Done => Gone(s, listed, listed.Keys)
              case BoundAgent(n) => n in listed && listed[n].bound
              case Conflict(n) => n in listed && !Current(s, n, listed[n])
              case CallFailed => !x.relistRead || exists n :: n in listed && n in x.undeleted
              case MachineExists => false
    {
      hide AllSealed, Leads, HostsOf, Gone, Current;
      LeadsOn();
      Interfere(sealed);
      ListedAreOld();
      ListedAsStored(s.deleters[p].vm);
      at := s;
      StandsStill(s);
      if !x.relistRead {
        Abandon(sealed);
        return CallFailed, at;
      }
      Take(RelistHosts(p), sealed);
      var listed := s.deleters[p].listed;
      var rest := listed.Keys;
      r := Done;
      assert listed.Keys - rest == {};
      NothingGone(listed);
      while rest != {} && r == Done
        invariant Legal() && Leads(at, s) && rest <= listed.Keys
        invariant p in s.deleters && s.deleters[p] == Finishing(old(s.deleters[p].vm), listed) && AllSealed(s, sealed)
        invariant r == Done ==> Gone(s, listed, listed.Keys - rest)
        invariant forall n :: n in listed ==> listed[n].uid < s.clock
        invariant match r
                  case Done => true
                  case BoundAgent(n) => n in listed && listed[n].bound
                  case Conflict(n) => n in listed && !Current(s, n, listed[n])
                  case CallFailed => exists n :: n in listed && n in x.undeleted
                  case MachineExists => false
      {
        var n :| n in rest;
        ghost var before := s;
        r := DeleteVMAgent(n, x, sealed);
        ClockAdvances(before, s);
        GoneStays(before, s, listed, listed.Keys - rest);
        if r == Done {
          OneMoreGone(s, listed, listed.Keys - rest, n);
          assert listed.Keys - (rest - {n}) == listed.Keys - rest + {n};
        }
        rest := rest - {n};
      }
      assert r == Done ==> listed.Keys - rest == listed.Keys;
      ghost var before := s;
      Abandon(sealed);
      SameHostsSameCopies(before, s, listed);
    }

    lemma NothingGone(listed: Hosts)
      ensures Gone(s, listed, {})
    {}

    lemma OneMoreGone(now: State, listed: Hosts, names: set<string>, n: string)
      requires Gone(now, listed, names) && n in listed && n !in now.hosts && listed[n].uid < now.clock
      ensures Gone(now, listed, names + {n})
    {}

    lemma ClockAdvances(x: State, y: State)
      requires Leads(x, y)
      ensures x.clock <= y.clock
    {
      var log :| Run(x, log) == Some(y);
      RunAdvancesClock(x, log, y);
    }

    /** Only hosts and the clock matter to copies. */
    lemma SameHostsSameCopies(x: State, y: State, listed: Hosts)
      requires y.hosts == x.hosts && Leads(x, y)
      ensures forall n :: n in listed ==> (Current(x, n, listed[n]) <==> Current(y, n, listed[n]))
      ensures Gone(x, listed, listed.Keys) ==> Gone(y, listed, listed.Keys)
    {
      ClockAdvances(x, y);
    }

    /**
     * The VM goes, if it does, in a state `there` in which all Agents that were listed for it in an
     * earlier state `at` are sealed, among them every Agent on its hardware, and they stay sealed to
     * the end. It goes whenever the preparation succeeds and the provider confirms it. The deletion
     * is finished only when every Agent listed afterwards, in the state `last`, is gone for good.
     */
    method ReconcileDelete(vm: OwnedVM, x: Answers)
      returns (r: Outcome, destroyed: bool, ghost checked: State, ghost at: State, ghost there: State,
               ghost last: State)
      requires Legal() && p !in s.deleters
      modifies this
      ensures Legal() && Leads(old(s), s) && p !in s.deleters
      ensures Leads(old(s), checked) && Leads(checked, at) && Leads(at, there) && Leads(there, s)
      ensures destroyed ==>
                && Enabled(there, DestroyVM(p)) && Leads(Next(there, DestroyVM(p)), s)
                && there.deleters[p].vm == vm && there.deleters[p].listed == HostsOf(at.hosts, vm)
                && AllSealed(there, HostsOf(at.hosts, vm)) && AllSealed(s, HostsOf(at.hosts, vm))
                && (vm.machineRef.Some? && vm.machineRef.value != "" ==> vm.machineRef.value !in checked.machines)
                && (forall n :: n in at.hosts && SharesHardware(vm, at.hosts[n].info) ==>
                      !at.hosts[n].bound && Sealed(there.hosts, n, at.hosts[n].uid) &&
                      Sealed(s.hosts, n, at.hosts[n].uid))
      ensures r == Done ==>
                destroyed && Leads(Next(there, DestroyVM(p)), last) && Leads(last, s)
                && Gone(s, HostsOf(last.hosts, vm), HostsOf(last.hosts, vm).Keys)
      ensures !destroyed ==>
                match r
                case Done => false
                case MachineExists => vm.machineRef.Some? && vm.machineRef.value in checked.machines
                case BoundAgent(n) => n in HostsOf(at.hosts, vm) && at.hosts[n].bound
                case Conflict(n) => n in HostsOf(at.hosts, vm) && !Current(there, n, at.hosts[n])
                case CallFailed =>
                  || !x.machineRead || !x.listRead || !x.destroyed
                  || exists n :: n in HostsOf(at.hosts, vm) && n in x.unpatched
    {
      hide AllSealed, Leads, HostsOf, SharesHardware, Gone, Current;
      LeadsOn();
      destroyed := false;
      r, checked, at := PrepareVMDeletion(vm, x);
      there, last := s, s;
      StandsStill(s);
      if r != Done {
        return;
      }
      ghost var sealed := s.deleters[p].listed;
      Interfere(sealed);
      there := s;
      StandsStill(s);
      var landed: bool := *;
      if !x.destroyed && !landed {
        Abandon(sealed);
        r := CallFailed;
        return;
      }
      Take(DestroyVM(p), sealed);
      destroyed := true;
      if !x.destroyed {
        StandsStill(s);
        Abandon(sealed);
        r := CallFailed;
      } else {
        r, last := DeleteVMAgents(x, sealed);
      }
      HardwareIsSealed(at.hosts, vm, there);
      HardwareIsSealed(at.hosts, vm, s);
    }

    lemma HardwareIsSealed(hosts: Hosts, vm: OwnedVM, now: State)
      requires AllSealed(now, HostsOf(hosts, vm))
      ensures forall n :: n in hosts && SharesHardware(vm, hosts[n].info) ==> Sealed(now.hosts, n, hosts[n].uid)
    {
      forall n | n in hosts && SharesHardware(vm, hosts[n].info) ensures Sealed(now.hosts, n, hosts[n].uid) {
        HostsOfIff(hosts, vm, n);
      }
    }
  }

  lemma {:induction false} RunAdvancesClock(x: State, log: seq<Action>, y: State)
    requires Run(x, log) == Some(y)
    ensures x.clock <= y.clock
    decreases |log|
  {
    if log != [] {
      RunAdvancesClock(Next(x, log[0]), log[1..], y);
    }
  }
}
