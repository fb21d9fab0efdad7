/** The deletion part of buildPlan: which owned VMs are selected, and why. */
module PoolPlanner {
  import opened Common
  import opened AgentMatching
  import opened VmLifecycle

  /** vmEligibleForCleanup, and a name to delete by. */
  predicate Eligible(vm: OwnedVM) {
    vm.name != "" && vm.source != DiscoveredAgent
  }

  predicate MachineGone(vm: OwnedVM) {
    Eligible(vm) && vm.phase == Released && vm.reason == MachineDeleted
  }

  predicate Returned(vm: OwnedVM) {
    Eligible(vm) && (vm.phase == Available || (vm.phase == Released && vm.reason == AgentReleased))
  }

  predicate OrphanDue(vm: OwnedVM, now: int) {
    Eligible(vm) && vm.phase == Orphaned && (vm.since == None || now >= vm.since.value + GRACE)
  }

  /** Some listed Agent of this name is not bound. */
  predicate HasUnboundAgent(agents: seq<AgentInfo>, vm: OwnedVM) {
    vm.agentRef.Some? && vm.agentRef.value != "" &&
    exists i :: 0 <= i < |agents| && agents[i].name == vm.agentRef.value && !agents[i].bound
  }

  function Names(vms: seq<OwnedVM>): set<string> {
    set i | 0 <= i < |vms| :: vms[i].name
  }

  lemma NamesAppend(vms: seq<OwnedVM>, vm: OwnedVM)
    ensures Names(vms + [vm]) == Names(vms) + {vm.name}
  {
    var more := vms + [vm];
    assert more[|vms|] == vm && forall i :: 0 <= i < |vms| ==> more[i] == vms[i];
    forall n | n in Names(vms) ensures n in Names(more) {
      var i :| 0 <= i < |vms| && vms[i].name == n;
      assert more[i].name == n;
    }
  }

  lemma NamesConcat(x: seq<OwnedVM>, y: seq<OwnedVM>)
    ensures Names(x + y) == Names(x) + Names(y)
  {
    var z := x + y;
    assert forall i :: 0 <= i < |x| ==> z[i] == x[i];
    assert forall i :: 0 <= i < |y| ==> z[|x| + i] == y[i];
    forall n | n in Names(x) ensures n in Names(z) {
      var i :| 0 <= i < |x| && x[i].name == n;
      assert z[i].name == n;
    }
    forall n | n in Names(y) ensures n in Names(z) {
      var i :| 0 <= i < |y| && y[i].name == n;
      assert z[|x| + i].name == n;
    }
  }

  /** deletedMachineTargets: exactly the released VMs whose Machine is gone. */
  method DeletedMachineTargets(vms: seq<OwnedVM>) returns (targets: seq<OwnedVM>)
    ensures forall vm :: vm in targets <==> vm in vms && MachineGone(vm)
    ensures UniqueVMs(vms) ==> UniqueVMs(targets)
  {
    targets := [];
    for i := 0 to |vms|
      invariant forall vm :: vm in targets <==> vm in vms[..i] && MachineGone(vm)
      invariant UniqueVMs(vms) ==> UniqueVMs(targets)
    {
      if MachineGone(vms[i]) {
        FreshName(vms, targets, i);
        targets := targets + [vms[i]];
      }
    }
  }

  ghost predicate UniqueVMs(vms: seq<OwnedVM>) {
    forall i, j :: 0 <= i < j < |vms| ==> vms[i].name != vms[j].name
  }

  lemma FreshName(vms: seq<OwnedVM>, targets: seq<OwnedVM>, i: nat)
    requires i < |vms| && forall vm :: vm in targets ==> vm in vms[..i]
    ensures UniqueVMs(vms) ==> vms[i].name !in Names(targets)
  {
    if UniqueVMs(vms) {
      forall k | 0 <= k < |targets| ensures targets[k].name != vms[i].name {
        assert targets[k] in vms[..i];
      }
    }
  }

  /** The unbound Agents by name, as one loop collects them. */
  method UnboundNames(agents: seq<AgentInfo>) returns (names: set<string>)
    ensures forall n :: n in names <==>
              n != "" && exists i :: 0 <= i < |agents| && agents[i].name == n && !agents[i].bound
  {
    names := {};
    for i := 0 to |agents|
      invariant forall n :: n in names <==> n != "" && exists j :: 0 <= j < i && agents[j].name == n && !agents[j].bound
    {
      if agents[i].name != "" && !agents[i].bound {
        names := names + {agents[i].name};
      }
    }
  }

  /** A VM that may go as surplus. */
  predicate Spare(vm: OwnedVM, agents: seq<AgentInfo>, selected: set<string>) {
    Returned(vm) && HasUnboundAgent(agents, vm) && vm.name !in selected
  }

  function SparePositions(vms: seq<OwnedVM>, agents: seq<AgentInfo>, selected: set<string>, i: nat): set<int>
    requires i <= |vms|
  {
    set j | 0 <= j < i && Spare(vms[j], agents, selected)
  }

  /** How many spare VMs come before position i. */
  function SpareBefore(vms: seq<OwnedVM>, agents: seq<AgentInfo>, selected: set<string>, i: nat): nat
    requires i <= |vms|
  {
    |SparePositions(vms, agents, selected, i)|
  }

  lemma OneMoreSpare(vms: seq<OwnedVM>, agents: seq<AgentInfo>, selected: set<string>, i: nat)
    requires i < |vms|
    ensures SpareBefore(vms, agents, selected, 0) == 0
    ensures SpareBefore(vms, agents, selected, i + 1)
         == SpareBefore(vms, agents, selected, i) + if Spare(vms[i], agents, selected) then 1 else 0
  {
    hide Spare;
    var before := SparePositions(vms, agents, selected, i);
    assert SparePositions(vms, agents, selected, 0) == {};
    assert SparePositions(vms, agents, selected, i + 1)
        == if Spare(vms[i], agents, selected) then before + {i} else before;
  }

  lemma {:induction false} SpareGrows(vms: seq<OwnedVM>, agents: seq<AgentInfo>, selected: set<string>, i: nat, j: nat)
    requires i <= j <= |vms|
    ensures SpareBefore(vms, agents, selected, i) <= SpareBefore(vms, agents, selected, j)
    decreases j - i
  {
    hide SpareBefore, Spare;
    if i < j {
      OneMoreSpare(vms, agents, selected, i);
      SpareGrows(vms, agents, selected, i + 1, j);
    }
  }

  /** The spare VMs that come first, in the order of the list, as many as there is surplus. */
  ghost predicate FirstSpares(vms: seq<OwnedVM>, agents: seq<AgentInfo>, selected: set<string>, surplus: int,
                              targets: seq<OwnedVM>) {
    var all := SpareBefore(vms, agents, selected, |vms|);
    && |targets| == (if surplus <= 0 then 0 else if all <= surplus then all else surplus)
    && (forall i :: 0 <= i < |vms| && Spare(vms[i], agents, selected) ==>
          var k := SpareBefore(vms, agents, selected, i);
          k < surplus ==> k < |targets| && targets[k] == vms[i])
  }

  /** surplusAvailableDeletionTargets: the first returned VMs with an unbound Agent, up to the surplus. */
  method SurplusTargets(vms: seq<OwnedVM>, agents: seq<AgentInfo>, selected: set<string>, surplus: int)
    returns (targets: seq<OwnedVM>)
    ensures FirstSpares(vms, agents, selected, surplus, targets)
    ensures forall vm :: vm in targets ==>
              vm in vms && Returned(vm) && HasUnboundAgent(agents, vm) && vm.name !in selected
    ensures UniqueVMs(vms) ==> UniqueVMs(targets)
  {
    hide SpareBefore, Returned, HasUnboundAgent;
    targets := [];
    if surplus <= 0 {
      return;
    }
    NoneSpare(vms, agents, selected);
    var unbound := UnboundNames(agents);
    for i := 0 to |vms|
      invariant |targets| == SpareBefore(vms, agents, selected, i) <= surplus
      invariant forall vm :: vm in targets ==> vm in vms[..i] && Spare(vm, agents, selected)
      invariant forall j :: 0 <= j < i && Spare(vms[j], agents, selected) ==>
                  var k := SpareBefore(vms, agents, selected, j); k < |targets| && targets[k] == vms[j]
      invariant UniqueVMs(vms) ==> UniqueVMs(targets)
    {
      if |targets| >= surplus {
        forall j | i <= j <= |vms| ensures SpareBefore(vms, agents, selected, j) >= surplus {
          SpareGrows(vms, agents, selected, i, j);
        }
        return;
      }
      var vm := vms[i];
      OneMoreSpare(vms, agents, selected, i);
      UnboundIff(agents, unbound, vm);
      if Returned(vm) && vm.name !in selected && vm.agentRef.Some? && vm.agentRef.value in unbound {
        FreshName(vms, targets, i);
        targets := targets + [vm];
      }
    }
  }

  lemma NoneSpare(vms: seq<OwnedVM>, agents: seq<AgentInfo>, selected: set<string>)
    ensures SpareBefore(vms, agents, selected, 0) == 0
  {
    assert SparePositions(vms, agents, selected, 0) == {};
  }

  lemma UnboundIff(agents: seq<AgentInfo>, names: set<string>, vm: OwnedVM)
    requires forall n :: n in names <==>
               n != "" && exists i :: 0 <= i < |agents| && agents[i].name == n && !agents[i].bound
    ensures HasUnboundAgent(agents, vm) <==> vm.agentRef.Some? && vm.agentRef.value in names
  {}

  /** orphanedDeletionTargets: exactly the orphans past their grace period that are not selected yet. */
  method OrphanTargets(vms: seq<OwnedVM>, selected: set<string>, now: int) returns (targets: seq<OwnedVM>)
    ensures forall vm :: vm in targets <==> vm in vms && OrphanDue(vm, now) && vm.name !in selected
    ensures UniqueVMs(vms) ==> UniqueVMs(targets)
  {
    targets := [];
    for i := 0 to |vms|
      invariant forall vm :: vm in targets <==> vm in vms[..i] && OrphanDue(vm, now) && vm.name !in selected
      invariant UniqueVMs(vms) ==> UniqueVMs(targets)
    {
      if OrphanDue(vms[i], now) && vms[i].name !in selected {
        FreshName(vms, targets, i);
        targets := targets + [vms[i]];
      }
    }
  }

  method SelectedNames(vms: seq<OwnedVM>) returns (names: set<string>)
    ensures names == Names(vms)
  {
    names := {};
    for i := 0 to |vms|
      invariant names == Names(vms[..i])
    {
      NamesAppend(vms[..i], vms[i]);
      assert vms[..i] + [vms[i]] == vms[..i + 1];
      names := names + {vms[i].name};
    }
    assert vms[..|vms|] == vms;
  }

  datatype Demand = Demand(waiting: int, withoutAgent: int)

  /** Why a VM may be deleted. */
  ghost predicate Justified(vm: OwnedVM, agents: seq<AgentInfo>, demand: Demand, now: int) {
    || MachineGone(vm)
    || (Returned(vm) && HasUnboundAgent(agents, vm) && demand.waiting == 0 && demand.withoutAgent == 0)
    || OrphanDue(vm, now)
  }

  /** Every reason in plain terms; the grace period is half an hour. */
  lemma JustifiedIff(vm: OwnedVM, agents: seq<AgentInfo>, demand: Demand, now: int)
    ensures Justified(vm, agents, demand, now) <==>
              && vm.name != "" && vm.source != DiscoveredAgent
              && (|| (vm.phase == Released && vm.reason == MachineDeleted)
                  || (&& (vm.phase == Available || (vm.phase == Released && vm.reason == AgentReleased))
                      && demand.waiting == 0 && demand.withoutAgent == 0
                      && exists i :: 0 <= i < |agents| && !agents[i].bound && agents[i].name != "" &&
                           vm.agentRef == Some(agents[i].name))
                  || (vm.phase == Orphaned && (vm.since == None || now >= vm.since.value + 1800)))
  {}

  function UnboundPositions(agents: seq<AgentInfo>, n: nat): set<int>
    requires n <= |agents|
  {
    set i | 0 <= i < n && !agents[i].bound
  }

  method CountAvailable(agents: seq<AgentInfo>) returns (available: nat)
    ensures available == |UnboundPositions(agents, |agents|)|
  {
    available := 0;
    assert UnboundPositions(agents, 0) == {};
    for i := 0 to |agents|
      invariant available == |UnboundPositions(agents, i)|
    {
      ghost var before := UnboundPositions(agents, i);
      assert UnboundPositions(agents, i + 1) == if agents[i].bound then before else before + {i};
      if !agents[i].bound {
        available := available + 1;
      }
    }
  }

  /**
   * The VMs that buildPlan selects for deletion: first those whose Machine is gone, then, without
   * demand, as many spare VMs as there are unbound Agents, then the orphans that are due.
   */
  method VMsToDelete(vms: seq<OwnedVM>, agents: seq<AgentInfo>, demand: Demand, cleanup: bool, now: int)
    returns (targets: seq<OwnedVM>, ghost gone: seq<OwnedVM>, ghost surplus: seq<OwnedVM>, ghost orphans: seq<OwnedVM>)
    ensures forall vm :: vm in targets ==> vm in vms && Justified(vm, agents, demand, now)
    ensures if cleanup
            then forall vm :: vm in vms && (MachineGone(vm) || OrphanDue(vm, now)) ==> vm.name in Names(targets)
            else targets == []
    ensures UniqueVMs(vms) ==> UniqueVMs(targets)
    ensures targets == gone + surplus + orphans
    ensures cleanup ==>
              && (forall vm :: vm in gone <==> vm in vms && MachineGone(vm))
              && (forall vm :: vm in orphans <==>
                    vm in vms && OrphanDue(vm, now) && vm.name !in Names(gone) + Names(surplus))
              && (if demand.waiting == 0 && demand.withoutAgent == 0
                  then FirstSpares(vms, agents, Names(gone), |UnboundPositions(agents, |agents|)|, surplus)
                  else surplus == [])
  {
    hide Returned, OrphanDue, MachineGone, HasUnboundAgent, FirstSpares;
    targets, gone, surplus, orphans := [], [], [], [];
    if !cleanup {
      return;
    }
    var available := CountAvailable(agents);
    targets := DeletedMachineTargets(vms);
    gone := targets;
    if demand.waiting == 0 && demand.withoutAgent == 0 {
      if available > 0 {
        var taken := SelectedNames(targets);
        var spare := SurplusTargets(vms, agents, taken, available);
        surplus := spare;
        DisjointUnique(targets, spare);
        targets := targets + spare;
      } else {
        NoSurplus(vms, agents, Names(gone));
      }
    }
    NamesConcat(gone, surplus);
    var taken := SelectedNames(targets);
    assert targets == gone + surplus;
    var due := OrphanTargets(vms, taken, now);
    orphans := due;
    DisjointUnique(targets, due);
    NamesConcat(targets, due);
    targets := targets + due;
    forall vm | vm in vms && (MachineGone(vm) || OrphanDue(vm, now)) ensures vm.name in Names(targets) {
      if MachineGone(vm) {
        InNames(gone, vm);
      } else if vm.name !in taken {
        InNames(due, vm);
      }
    }
  }

  lemma NoSurplus(vms: seq<OwnedVM>, agents: seq<AgentInfo>, selected: set<string>)
    ensures FirstSpares(vms, agents, selected, 0, [])
  {}

  lemma InNames(vms: seq<OwnedVM>, vm: OwnedVM)
    requires vm in vms
    ensures vm.name in Names(vms)
  {}

  lemma DisjointUnique(x: seq<OwnedVM>, y: seq<OwnedVM>)
    requires forall vm :: vm in y ==> vm.name !in Names(x)
    ensures UniqueVMs(x) && UniqueVMs(y) ==> UniqueVMs(x + y)
  {}
}
