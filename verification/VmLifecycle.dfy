/**
 * The inventory of owned VMs over repeated reconciles: merging the recorded list with the current
 * one, refreshing every phase from the observed Agents and Machines, and planning deletions.
 */
module VmLifecycle {
  import opened Common
  import opened AgentMatching

  datatype MachineInfo = MachineInfo(name: string, deleting: bool)

  /** orphanedOwnedVMGracePeriod in seconds. */
  const GRACE := 1800

  // ---------- mergeOwnedVMStatuses ----------

  /** The last VM in the list with this name (UUID, MAC); a map filled in list order keeps that one. */
  function ByName(vms: seq<OwnedVM>, key: string): Option<OwnedVM> {
    if vms == [] || key == "" then None
    else if vms[|vms| - 1].name == key then Some(vms[|vms| - 1])
    else ByName(vms[..|vms| - 1], key)
  }

  function ByBIOS(vms: seq<OwnedVM>, key: string): Option<OwnedVM> {
    if vms == [] || key == "" then None
    else if vms[|vms| - 1].biosUUID == key then Some(vms[|vms| - 1])
    else ByBIOS(vms[..|vms| - 1], key)
  }

  function ByMAC(vms: seq<OwnedVM>, key: string): Option<OwnedVM> {
    if vms == [] || key == "" then None
    else if vms[|vms| - 1].mac == key then Some(vms[|vms| - 1])
    else ByMAC(vms[..|vms| - 1], key)
  }

  function Previous(vms: seq<OwnedVM>, vm: OwnedVM): Option<OwnedVM> {
    if ByName(vms, vm.name).Some? then ByName(vms, vm.name)
    else if ByBIOS(vms, vm.biosUUID).Some? then ByBIOS(vms, vm.biosUUID)
    else ByMAC(vms, vm.mac)
  }

  /** Another VM took over the name: owner or BIOS UUID are known on both sides and differ. */
  predicate Replaced(before: OwnedVM, vm: OwnedVM) {
    || (vm.ownerUID != "" && before.ownerUID != "" && vm.ownerUID != before.ownerUID)
    || (vm.biosUUID != "" && before.biosUUID != "" && vm.biosUUID != before.biosUUID)
  }

  /** The lifecycle recorded for a VM is carried over to its current entry. */
  function Carry(before: OwnedVM, vm: OwnedVM): OwnedVM {
    vm.(phase := before.phase, reason := before.reason, since := before.since,
        agentRef := before.agentRef, machineRef := before.machineRef,
        biosUUID := if vm.biosUUID == "" then before.biosUUID else vm.biosUUID,
        ownerUID := if vm.ownerUID == "" then before.ownerUID else vm.ownerUID,
        source := if vm.source == Unset then before.source else vm.source,
        mac := if vm.mac == "" then before.mac else vm.mac)
  }

  function MergeVM(previous: seq<OwnedVM>, vm: OwnedVM): OwnedVM {
    var before := Previous(previous, vm);
    if before.None? || Replaced(before.value, vm) then vm else Carry(before.value, vm)
  }

  function Merge(previous: seq<OwnedVM>, current: seq<OwnedVM>): (r: seq<OwnedVM>)
    ensures |r| == |current| && forall i :: 0 <= i < |r| ==> r[i] == MergeVM(previous, current[i])
  {
    if current == [] then [] else [MergeVM(previous, current[0])] + Merge(previous, current[1..])
  }

  lemma {:induction false} NothingToCarry(current: seq<OwnedVM>)
    ensures Merge([], current) == current
  {}

  datatype VMLookup = VMLookup(byName: map<string, OwnedVM>, byBIOS: map<string, OwnedVM>, byMAC: map<string, OwnedVM>)

  function Get(m: map<string, OwnedVM>, key: string): Option<OwnedVM> {
    if key in m then Some(m[key]) else None
  }

  function Put(m: map<string, OwnedVM>, key: string, vm: OwnedVM): map<string, OwnedVM> {
    if key != "" then m[key := vm] else m
  }

  /** newOwnedVMLookup: three maps, filled in list order. */
  method BuildLookup(vms: seq<OwnedVM>) returns (l: VMLookup)
    ensures forall key :: Get(l.byName, key) == ByName(vms, key)
    ensures forall key :: Get(l.byBIOS, key) == ByBIOS(vms, key)
    ensures forall key :: Get(l.byMAC, key) == ByMAC(vms, key)
  {
    l := VMLookup(map[], map[], map[]);
    for i := 0 to |vms|
      invariant forall key :: Get(l.byName, key) == ByName(vms[..i], key)
      invariant forall key :: Get(l.byBIOS, key) == ByBIOS(vms[..i], key)
      invariant forall key :: Get(l.byMAC, key) == ByMAC(vms[..i], key)
    {
      ghost var longer := vms[..i + 1];
      assert longer[..i] == vms[..i];
      assert forall key :: ByName(longer, key) == if key != "" && vms[i].name == key then Some(vms[i])
             else ByName(vms[..i], key);
      assert forall key :: ByBIOS(longer, key) == if key != "" && vms[i].biosUUID == key then Some(vms[i])
             else ByBIOS(vms[..i], key);
      assert forall key :: ByMAC(longer, key) == if key != "" && vms[i].mac == key then Some(vms[i])
             else ByMAC(vms[..i], key);
      l := VMLookup(Put(l.byName, vms[i].name, vms[i]), Put(l.byBIOS, vms[i].biosUUID, vms[i]),
          Put(l.byMAC, vms[i].mac, vms[i]));
    }
    assert vms[..|vms|] == vms;
  }

  /** The merge loop with the lookup; an empty list on either side changes nothing. */
  method MergeOwnedVMs(previous: seq<OwnedVM>, current: seq<OwnedVM>) returns (merged: seq<OwnedVM>)
    ensures merged == Merge(previous, current)
  {
    hide Merge, ByName, ByBIOS, ByMAC, Carry, Replaced;
    if previous == [] || current == [] {
      NothingToCarry(current);
      NothingToMerge(previous);
      return current;
    }
    var l := BuildLookup(previous);
    merged := [];
    for i := 0 to |current|
      invariant merged == Merge(previous, current)[..i]
    {
      var vm := current[i];
      var before := Get(l.byName, vm.name);
      if before == None {
        before := Get(l.byBIOS, vm.biosUUID);
      }
      if before == None {
        before := Get(l.byMAC, vm.mac);
      }
      if before.Some? && !Replaced(before.value, vm) {
        vm := Carry(before.value, vm);
      }
      merged := merged + [vm];
    }
  }

  lemma NothingToMerge(previous: seq<OwnedVM>)
    ensures Merge(previous, []) == []
  {}

  // ---------- refreshOwnedVMStatuses ----------

  function MachineStates(machines: seq<MachineInfo>): map<string, bool> {
    if machines == [] then map[]
    else MachineStates(machines[..|machines| - 1])[machines[|machines| - 1].name := machines[|machines| - 1].deleting]
  }

  function SetPhase(vm: OwnedVM, phase: VMPhase, reason: Reason, now: int): OwnedVM {
    if vm.phase == phase && vm.reason == reason then vm else vm.(phase := phase, reason := reason, since := Some(now))
  }

  /** applyAgentToOwnedVMStatus */
  function ApplyAgent(vm: OwnedVM, a: AgentInfo, now: int): OwnedVM {
    var known := vm.(
      agentRef := Some(a.name),
      mac := if a.mac != "" then a.mac else vm.mac,
      biosUUID := if a.biosUUID != "" then a.biosUUID else vm.biosUUID,
      machineRef := if a.machineName != "" then Some(a.machineName) else None);
    if a.bound then SetPhase(known, Bound, AgentBound, now)
    else if vm.phase == Bound || vm.phase == Released then SetPhase(known, Released, AgentReleased, now)
    else SetPhase(known, Available, AgentAvailable, now)
  }

  predicate Unnamed(ref: Option<string>) {
    ref == None || ref == Some("")
  }

  /** applyMachineStateToOwnedVMStatus */
  function ApplyMachine(vm: OwnedVM, machines: map<string, bool>, now: int): OwnedVM {
    if Unnamed(vm.machineRef) then
      if vm.phase == Released && vm.reason == MachineDeleting then SetPhase(vm, Released, MachineDeleted, now) else vm
    else if vm.machineRef.value !in machines then
      if vm.phase == Released && (vm.reason == MachineDeleting || vm.reason == AgentReleased)
      then SetPhase(vm, Released, MachineDeleted, now) else vm
    else if machines[vm.machineRef.value] then SetPhase(vm, Released, MachineDeleting, now)
    else vm
  }

  /** A VM that matches Agent a. */
  function RefreshMatched(vm: OwnedVM, a: AgentInfo, machines: map<string, bool>, now: int): OwnedVM {
    var wasDeleting := vm.phase == Released && vm.reason == MachineDeleting;
    var applied := ApplyAgent(vm, a, now);
    var kept := if !a.bound && applied.machineRef == None && vm.machineRef.Some?
        then applied.(machineRef := vm.machineRef) else applied;
    var deleting :=
      if wasDeleting then
        SetPhase(if Unnamed(kept.machineRef) && !Unnamed(vm.machineRef)
            then kept.(machineRef := vm.machineRef) else kept,
                 Released, MachineDeleting, now)
      else kept;
    ApplyMachine(deleting, machines, now)
  }

  predicate HadAgent(vm: OwnedVM) {
    !Unnamed(vm.agentRef) || vm.phase == Available || vm.phase == Bound || vm.phase == Released
  }

  predicate DiscoveryExpired(vm: OwnedVM, now: int) {
    vm.phase == ProvisioningVM && vm.reason == AgentNotDiscovered && vm.since.Some? && now >= vm.since.value + GRACE
  }

  /** markOwnedVMWithoutMatchingAgent */
  function MarkUnmatched(vm: OwnedVM, now: int): OwnedVM {
    if vm.phase == Orphaned then vm
    else if HadAgent(vm) then SetPhase(vm, Orphaned, AgentMissing, now)
    else if DiscoveryExpired(vm, now) then SetPhase(vm, Orphaned, AgentDiscoveryExpired, now).(since := vm.since)
    else SetPhase(vm, ProvisioningVM, AgentNotDiscovered, now)
  }

  function RefreshUnmatched(vm: OwnedVM, machines: map<string, bool>, now: int): OwnedVM {
    var machine := if vm.machineRef == None then "" else vm.machineRef.value;
    if machine in machines then
      if machines[machine] then SetPhase(vm, Released, MachineDeleting, now) else vm
    else MarkUnmatched(vm, now)
  }

  function RefreshVM(vm: OwnedVM, ix: Index, machines: map<string, bool>, now: int): OwnedVM {
    var a := Match(ix, vm);
    if a.Some? then RefreshMatched(vm, a.value, machines, now) else RefreshUnmatched(vm, machines, now)
  }

  function RefreshAll(vms: seq<OwnedVM>, ix: Index, machines: map<string, bool>, now: int): (r: seq<OwnedVM>)
    ensures |r| == |vms| && forall i :: 0 <= i < |r| ==> r[i] == RefreshVM(vms[i], ix, machines, now)
  {
    if vms == [] then [] else [RefreshVM(vms[0], ix, machines, now)] + RefreshAll(vms[1..], ix, machines, now)
  }

  function MatchedNames(vms: seq<OwnedVM>, ix: Index): set<string> {
    set i | 0 <= i < |vms| && Match(ix, vms[i]).Some? :: Match(ix, vms[i]).value.name
  }

  function KnownNames(vms: seq<OwnedVM>): set<string> {
    set i | 0 <= i < |vms| && vms[i].name != "" :: vms[i].name
  }

  /** agentOwnedVMStatus, for a host that only its Agent reports. */
  function DiscoveredVM(a: AgentInfo, machines: map<string, bool>, now: int): OwnedVM {
    var vm := OwnedVM(ObservedHostname(a), "", DiscoveredAgent, "", a.mac, None, None, NoPhase,
        OtherReason(""), Some(now));
    ApplyMachine(ApplyAgent(vm, a, now), machines, now)
  }

  /** Entries for Agents that matched no VM and whose hostname is not taken yet. */
  function Discovered(agents: seq<AgentInfo>, matched: set<string>, known: set<string>, machines: map<string, bool>,
                      now: int): seq<OwnedVM> {
    if agents == [] then []
    else
      var a := agents[0];
      if a.name in matched || ObservedHostname(a) == "" || ObservedHostname(a) in known then
        Discovered(agents[1..], matched, known, machines, now)
      else
        [DiscoveredVM(a, machines, now)] +
            Discovered(agents[1..], matched, known + {ObservedHostname(a)}, machines, now)
  }

  function Refresh(vms: seq<OwnedVM>, agents: seq<AgentInfo>, machines: seq<MachineInfo>, now: int): seq<OwnedVM> {
    var ix := IndexOf(agents);
    var states := MachineStates(machines);
    RefreshAll(vms, ix, states, now) + Discovered(agents, MatchedNames(vms, ix), KnownNames(vms), states, now)
  }

  method CollectMachines(machines: seq<MachineInfo>) returns (states: map<string, bool>)
    ensures states == MachineStates(machines)
  {
    states := map[];
    for i := 0 to |machines|
      invariant states == MachineStates(machines[..i])
    {
      assert machines[..i + 1][..i] == machines[..i];
      states := states[machines[i].name := machines[i].deleting];
    }
    assert machines[..|machines|] == machines;
  }

  /** The first loop of refreshOwnedVMStatuses. */
  method RefreshKnown(vms: seq<OwnedVM>, ix: Index, states: map<string, bool>, now: int)
    returns (r: seq<OwnedVM>, matched: set<string>, known: set<string>)
    ensures r == RefreshAll(vms, ix, states, now) && matched == MatchedNames(vms, ix) && known == KnownNames(vms)
  {
    hide RefreshMatched, RefreshUnmatched, Match, RefreshAll, MatchedNames, KnownNames;
    r, matched, known := [], {}, {};
    NoNames(ix);
    for i := 0 to |vms|
      invariant r == RefreshAll(vms, ix, states, now)[..i]
      invariant matched == MatchedNames(vms[..i], ix) && known == KnownNames(vms[..i])
    {
      var vm := vms[i];
      AddedNames(vms, ix, i);
      if vm.name != "" {
        known := known + {vm.name};
      }
      var a := Match(ix, vm);
      if a.Some? {
        matched := matched + {a.value.name};
        vm := RefreshMatched(vm, a.value, states, now);
      } else {
        vm := RefreshUnmatched(vm, states, now);
      }
      r := r + [vm];
    }
    assert vms[..|vms|] == vms;
  }

  lemma NoNames(ix: Index)
    ensures MatchedNames([], ix) == {} && KnownNames([]) == {}
  {}

  /** Both loops of refreshOwnedVMStatuses. */
  method RefreshOwnedVMs(vms: seq<OwnedVM>, agents: seq<AgentInfo>, machines: seq<MachineInfo>, now: int)
    returns (r: seq<OwnedVM>)
    ensures r == Refresh(vms, agents, machines, now)
  {
    hide RefreshAll, MatchedNames, KnownNames, DiscoveredVM, IndexOf;
    var ix := BuildIndex(agents);
    var states := CollectMachines(machines);
    var refreshed, matched, known := RefreshKnown(vms, ix, states, now);
    var extra := [];
    for i := 0 to |agents|
      invariant extra + Discovered(agents[i..], matched, known, states, now)
                == Discovered(agents, matched, KnownNames(vms), states, now)
    {
      var a := agents[i];
      assert agents[i..][1..] == agents[i + 1..];
      if a.name !in matched && ObservedHostname(a) != "" && ObservedHostname(a) !in known {
        extra := extra + [DiscoveredVM(a, states, now)];
        known := known + {ObservedHostname(a)};
      }
    }
    r := refreshed + extra;
  }

  lemma AddedNames(vms: seq<OwnedVM>, ix: Index, i: nat)
    requires i < |vms|
    ensures KnownNames(vms[..i + 1]) == KnownNames(vms[..i]) + (if vms[i].name != "" then {vms[i].name} else {})
    ensures MatchedNames(vms[..i + 1], ix)
         == MatchedNames(vms[..i], ix) + (if Match(ix, vms[i]).Some? then {Match(ix, vms[i]).value.name} else {})
  {}

  // ---------- applyPlan: Agents that were given a hostname ----------

  /** An Agent to patch, the hostname assigned to it (possibly none) and the time of the change. */
  datatype Preparation = Preparation(hostname: string, agent: string, now: int)

  function MarkedAvailable(vm: OwnedVM, p: Preparation): OwnedVM {
    SetPhase(vm.(agentRef := Some(p.agent), machineRef := None), Available, OtherReason("AgentPrepared"), p.now)
  }

  /** The first entry of that name is marked. */
  function MarkFirst(vms: seq<OwnedVM>, p: Preparation): (r: seq<OwnedVM>)
    ensures |r| == |vms|
  {
    if vms == [] then []
    else if vms[0].name == p.hostname then [MarkedAvailable(vms[0], p)] + vms[1..]
    else [vms[0]] + MarkFirst(vms[1..], p)
  }

  /** The inventory after these Agents were patched; an Agent without hostname marks nothing. */
  function Prepare(vms: seq<OwnedVM>, ps: seq<Preparation>): seq<OwnedVM> {
    if ps == [] then vms
    else
      var n := |ps| - 1;
      var before := Prepare(vms, ps[..n]);
      if ps[n].hostname == "" then before else MarkFirst(before, ps[n])
  }

  lemma {:induction false} MarkFirstAt(vms: seq<OwnedVM>, p: Preparation, i: nat)
    requires i <= |vms| && forall j :: 0 <= j < i ==> vms[j].name != p.hostname
    ensures MarkFirst(vms, p) == if i == |vms| then vms
                                 else if vms[i].name == p.hostname then vms[i := MarkedAvailable(vms[i], p)]
                                 else vms[..i] + MarkFirst(vms[i..], p)
  {
    if i > 0 {
      MarkFirstAt(vms[1..], p, i - 1);
      assert vms[1..][i - 1..] == vms[i..];
    }
  }

  /** markOwnedVMAvailable, in place. */
  method MarkOwnedVMAvailable(vms: array<OwnedVM>, p: Preparation)
    modifies vms
    ensures vms[..] == MarkFirst(old(vms[..]), p)
  {
    for i := 0 to vms.Length
      invariant vms[..] == old(vms[..]) && forall j :: 0 <= j < i ==> vms[j].name != p.hostname
    {
      if vms[i].name == p.hostname {
        MarkFirstAt(vms[..], p, i);
        vms[i] := MarkedAvailable(vms[i], p);
        return;
      }
    }
    MarkFirstAt(vms[..], p, vms.Length);
  }

  /** The first loop of applyPlan; it stops at the first Agent that cannot be patched. */
  method PrepareAgents(vms: array<OwnedVM>, ps: seq<Preparation>) returns (done: nat)
    modifies vms
    ensures done <= |ps| && vms[..] == Prepare(old(vms[..]), ps[..done])
  {
    done := 0;
    while done < |ps|
      invariant done <= |ps| && vms[..] == Prepare(old(vms[..]), ps[..done])
    {
      var patched: bool := *;
      if !patched {
        return;
      }
      if ps[done].hostname != "" {
        MarkOwnedVMAvailable(vms, ps[done]);
      }
      assert ps[..done + 1][..done] == ps[..done];
      done := done + 1;
    }
  }
}
