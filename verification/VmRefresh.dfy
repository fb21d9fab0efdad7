/**
 * What merging and refreshing the inventory decide, as tables over the observed Agents and
 * Machines, and over any number of refreshes of a VM without Agent.
 */
module VmRefresh {
  import opened Common
  import opened AgentMatching
  import opened VmLifecycle
  import opened PoolPlanner

  // ---------- One refresh ----------

  /** The Machine that a VM refers to after a refresh from Agent a. */
  ghost function MachineAfter(vm: OwnedVM, a: AgentInfo): Option<string> {
    var waits := vm.phase == Released && vm.reason == MachineDeleting;
    var named := vm.machineRef != None && vm.machineRef != Some("");
    if a.machineName != "" then Some(a.machineName)
    else if !a.bound || (waits && named) then vm.machineRef
    else None
  }

  ghost predicate PhaseOnly(vm: OwnedVM, r: OwnedVM) {
    r == vm.(phase := r.phase, reason := r.reason, since := r.since)
  }

  lemma SetPhaseOnly(vm: OwnedVM, phase: VMPhase, reason: Reason, now: int)
    ensures PhaseOnly(vm, SetPhase(vm, phase, reason, now))
  {}

  lemma MachineSetsPhaseOnly(vm: OwnedVM, machines: map<string, bool>, now: int)
    ensures PhaseOnly(vm, ApplyMachine(vm, machines, now))
  {
    hide PhaseOnly, SetPhase;
    SetPhaseOnly(vm, Released, MachineDeleted, now);
    SetPhaseOnly(vm, Released, MachineDeleting, now);
    UnchangedPhase(vm);
  }

  lemma UnchangedPhase(vm: OwnedVM)
    ensures PhaseOnly(vm, vm)
  {}

  lemma AgentIdentity(vm: OwnedVM, a: AgentInfo, now: int)
    ensures var r := ApplyAgent(vm, a, now);
            && r.machineRef == (if a.machineName != "" then Some(a.machineName) else None) && r.agentRef == Some(a.name)
            && r.mac == (if a.mac == "" then vm.mac else a.mac)
            && r.biosUUID == (if a.biosUUID == "" then vm.biosUUID else a.biosUUID)
            && r.name == vm.name && r.ownerUID == vm.ownerUID && r.source == vm.source
  {}

  /** A refreshed VM takes over what its Agent reports and keeps the rest of its identity. */
  lemma MatchedIdentity(vm: OwnedVM, a: AgentInfo, machines: map<string, bool>, now: int)
    ensures var r := RefreshMatched(vm, a, machines, now);
            && r.machineRef == MachineAfter(vm, a) && r.agentRef == Some(a.name)
            && r.mac == (if a.mac == "" then vm.mac else a.mac)
            && r.biosUUID == (if a.biosUUID == "" then vm.biosUUID else a.biosUUID)
            && r.name == vm.name && r.ownerUID == vm.ownerUID && r.source == vm.source
  {
    AgentIdentity(vm, a, now);
    var kept := if !a.bound && ApplyAgent(vm, a, now).machineRef == None && vm.machineRef.Some?
        then ApplyAgent(vm, a, now).(machineRef := vm.machineRef) else ApplyAgent(vm, a, now);
    var named := if Unnamed(kept.machineRef) && !Unnamed(vm.machineRef)
        then kept.(machineRef := vm.machineRef) else kept;
    var deleting := if vm.phase == Released && vm.reason == MachineDeleting
        then SetPhase(named, Released, MachineDeleting, now) else kept;
    SetPhaseOnly(named, Released, MachineDeleting, now);
    MachineSetsPhaseOnly(deleting, machines, now);
    hide ApplyAgent, SetPhase, ApplyMachine;
    assert RefreshMatched(vm, a, machines, now) == ApplyMachine(deleting, machines, now);
  }

  /**
   * The phase of a VM that matches an Agent. It waits while its Machine is being deleted, and once it
   * waits until the Machine is not listed; otherwise a bound Agent binds it, and an unbound one
   * releases it if it was in use and makes it available if it was not.
   */
  lemma MatchedPhase(vm: OwnedVM, a: AgentInfo, machines: map<string, bool>, now: int)
    ensures var r := RefreshMatched(vm, a, machines, now);
            var m := MachineAfter(vm, a);
            var named := m != None && m != Some("");
            (r.phase, r.reason) ==
              if named && m.value in machines && machines[m.value] then (Released, MachineDeleting)
              else if vm.phase == Released && vm.reason == MachineDeleting then
                (Released, if named && m.value in machines then MachineDeleting else MachineDeleted)
              else if a.bound then (Bound, AgentBound)
              else if vm.phase == Bound || vm.phase == Released then
                (Released, if named && m.value !in machines then MachineDeleted else AgentReleased)
              else (Available, AgentAvailable)
  {
    if a.bound {
      BoundPhase(vm, a, machines, now);
    } else {
      UnboundPhase(vm, a, machines, now);
    }
  }

  lemma BoundPhase(vm: OwnedVM, a: AgentInfo, machines: map<string, bool>, now: int)
    requires a.bound
    ensures var r := RefreshMatched(vm, a, machines, now);
            var m := MachineAfter(vm, a);
            var named := m != None && m != Some("");
            (r.phase, r.reason) ==
              if named && m.value in machines && machines[m.value] then (Released, MachineDeleting)
              else if vm.phase == Released && vm.reason == MachineDeleting then
                (Released, if named && m.value in machines then MachineDeleting else MachineDeleted)
              else (Bound, AgentBound)
  {}

  lemma UnboundPhase(vm: OwnedVM, a: AgentInfo, machines: map<string, bool>, now: int)
    requires !a.bound
    ensures var r := RefreshMatched(vm, a, machines, now);
            var m := MachineAfter(vm, a);
            var named := m != None && m != Some("");
            (r.phase, r.reason) ==
              if named && m.value in machines && machines[m.value] then (Released, MachineDeleting)
              else if vm.phase == Released && vm.reason == MachineDeleting then
                (Released, if named && m.value in machines then MachineDeleting else MachineDeleted)
              else if vm.phase == Bound || vm.phase == Released then
                (Released, if named && m.value !in machines then MachineDeleted else AgentReleased)
              else (Available, AgentAvailable)
  {}

  /** The time of the last change stays only where phase and reason do, and neither waits for a Machine. */
  lemma MatchedSince(vm: OwnedVM, a: AgentInfo, machines: map<string, bool>, now: int)
    ensures var r := RefreshMatched(vm, a, machines, now);
            r.since == if (r.phase, r.reason) == (vm.phase, vm.reason) && r.reason != MachineDeleting
                            && r.reason != MachineDeleted then vm.since else Some(now)
  {}

  /** A VM that matches no Agent is left alone while its Machine is listed, unless that is being deleted. */
  lemma UnmatchedOutcome(vm: OwnedVM, machines: map<string, bool>, now: int)
    ensures var r := RefreshUnmatched(vm, machines, now);
            var m := if vm.machineRef == None then "" else vm.machineRef.value;
            var same := vm.phase == ProvisioningVM && vm.reason == AgentNotDiscovered;
            var late := same && vm.since != None && now >= vm.since.value + 1800;
            var used := (vm.agentRef != None && vm.agentRef != Some("")) || vm.phase == Available ||
                vm.phase == Bound || vm.phase == Released;
            && r == vm.(phase := r.phase, reason := r.reason, since := r.since)
            && (m in machines && !machines[m] ==> r == vm)
            && (m in machines && machines[m] ==>
                  && r.phase == Released && r.reason == MachineDeleting
                  && (vm.phase == Released && vm.reason == MachineDeleting ==> r == vm)
                  && (!(vm.phase == Released && vm.reason == MachineDeleting) ==> r.since == Some(now)))
            && (m !in machines ==>
                  && (vm.phase == Orphaned ==> r == vm)
                  && (vm.phase != Orphaned && used ==>
                        r.phase == Orphaned && r.reason == AgentMissing && r.since == Some(now))
                  && (vm.phase != Orphaned && !used && late ==>
                        r.phase == Orphaned && r.reason == AgentDiscoveryExpired && r.since == vm.since)
                  && (vm.phase != Orphaned && !used && !late ==>
                        && r.phase == ProvisioningVM && r.reason == AgentNotDiscovered
                        && r.since == if same then vm.since else Some(now)))
  {}

  /** A host that only its Agent reports. */
  lemma DiscoveredOutcome(a: AgentInfo, machines: map<string, bool>, now: int)
    ensures var r := DiscoveredVM(a, machines, now);
            && r.name == (if a.hostname != "" then a.hostname else a.inventoryHostname) && r.source == DiscoveredAgent
            && r.agentRef == Some(a.name) && r.mac == a.mac && r.biosUUID == a.biosUUID && r.ownerUID == ""
            && r.machineRef == (if a.machineName == "" then None else Some(a.machineName)) && r.since == Some(now)
            && (r.phase, r.reason) ==
                 (if a.machineName != "" && a.machineName in machines && machines[a.machineName]
                  then (Released, MachineDeleting)
                  else if a.bound then (Bound, AgentBound) else (Available, AgentAvailable))
  {}

  /** Agent i matched no VM and is the first to report a hostname that is not known yet. */
  ghost predicate Unlisted(agents: seq<AgentInfo>, matched: set<string>, known: set<string>, i: int) {
    && 0 <= i < |agents| && agents[i].name !in matched
    && ObservedHostname(agents[i]) != "" && ObservedHostname(agents[i]) !in known
    && forall j :: 0 <= j < i && agents[j].name !in matched ==>
         ObservedHostname(agents[j]) != ObservedHostname(agents[i])
  }

  /** The entries that a refresh adds are exactly those of the unlisted Agents. */
  lemma {:induction false} DiscoveredExactly(agents: seq<AgentInfo>, matched: set<string>, known: set<string>,
                                             machines: map<string, bool>, now: int, vm: OwnedVM)
    ensures vm in Discovered(agents, matched, known, machines, now) <==>
              exists i :: Unlisted(agents, matched, known, i) && vm == DiscoveredVM(agents[i], machines, now)
    decreases |agents|
  {
    hide DiscoveredVM;
    if agents != [] {
      var a, rest := agents[0], agents[1..];
      assert forall j :: 0 <= j < |rest| ==> rest[j] == agents[j + 1];
      var skipped := a.name in matched || ObservedHostname(a) == "" || ObservedHostname(a) in known;
      var known' := if skipped then known else known + {ObservedHostname(a)};
      DiscoveredExactly(rest, matched, known', machines, now, vm);
      forall i | 0 <= i < |rest| ensures Unlisted(rest, matched, known', i) <==>
          Unlisted(agents, matched, known, i + 1) {
        UnlistedLater(agents, matched, known, i);
      }
      if vm in Discovered(agents, matched, known, machines, now) {
        if vm in Discovered(rest, matched, known', machines, now) {
          var i :| Unlisted(rest, matched, known', i) && vm == DiscoveredVM(rest[i], machines, now);
          assert Unlisted(agents, matched, known, i + 1);
        } else {
          assert Unlisted(agents, matched, known, 0);
        }
      }
      if i :| Unlisted(agents, matched, known, i) && vm == DiscoveredVM(agents[i], machines, now) {
        if i > 0 {
          assert Unlisted(rest, matched, known', i - 1);
        }
      }
    }
  }

  lemma UnlistedLater(agents: seq<AgentInfo>, matched: set<string>, known: set<string>, i: nat)
    requires i + 1 < |agents|
    ensures var a := agents[0];
            var skipped := a.name in matched || ObservedHostname(a) == "" || ObservedHostname(a) in known;
            var known' := if skipped then known else known + {ObservedHostname(a)};
            Unlisted(agents[1..], matched, known', i) <==> Unlisted(agents, matched, known, i + 1)
  {
    var rest := agents[1..];
    assert forall j :: 0 <= j < |rest| ==> rest[j] == agents[j + 1];
    assert forall j :: 0 < j <= i ==> agents[j] == rest[j - 1];
  }

  ghost predicate LastListed(machines: seq<MachineInfo>, name: string, i: int) {
    0 <= i < |machines| && machines[i].name == name && forall j :: i < j < |machines| ==> machines[j].name != name
  }

  lemma LastListedBefore(machines: seq<MachineInfo>, name: string)
    requires machines != [] && machines[|machines| - 1].name != name
    ensures var before := machines[..|machines| - 1];
            && (forall i :: LastListed(machines, name, i) ==> LastListed(before, name, i) && before[i] == machines[i])
            && (forall i :: 0 <= i < |machines| && machines[i].name == name ==>
                  i < |before| && before[i].name == name)
  {}

  /** The Machines are known by their last entry in the list. */
  lemma {:induction false} MachineStatesMean(machines: seq<MachineInfo>, name: string)
    ensures name in MachineStates(machines) <==> exists i :: 0 <= i < |machines| && machines[i].name == name
    ensures forall i :: LastListed(machines, name, i) ==>
              name in MachineStates(machines) && MachineStates(machines)[name] == machines[i].deleting
  {
    if machines != [] {
      var n := |machines| - 1;
      MachineStatesMean(machines[..n], name);
      if machines[n].name == name {
        assert forall i :: LastListed(machines, name, i) ==> i == n;
      } else {
        LastListedBefore(machines, name);
        hide LastListed;
        if name in MachineStates(machines) {
          var i :| 0 <= i < n && machines[..n][i].name == name;
          assert machines[i].name == name;
        }
      }
    }
  }

  /**
   * A refresh goes through the inventory entry by entry, from the matching Agent or without one, and
   * then appends exactly the hosts that only their Agents report.
   */
  lemma RefreshExactly(vms: seq<OwnedVM>, agents: seq<AgentInfo>, machines: seq<MachineInfo>, now: int, vm: OwnedVM)
    ensures var r := Refresh(vms, agents, machines, now);
            var states := MachineStates(machines);
            var matched := set i | 0 <= i < |vms| && Match(IndexOf(agents), vms[i]).Some? ::
                Match(IndexOf(agents), vms[i]).value.name;
            var known := set i | 0 <= i < |vms| && vms[i].name != "" :: vms[i].name;
            && |r| >= |vms|
            && (forall i :: 0 <= i < |vms| ==>
                  r[i] == match Match(IndexOf(agents), vms[i])
                          case Some(a) => RefreshMatched(vms[i], a, states, now)
                          case None => RefreshUnmatched(vms[i], states, now))
            && (vm in r[|vms|..] <==>
                  exists i :: Unlisted(agents, matched, known, i) && vm == DiscoveredVM(agents[i], states, now))
  {
    hide Match, IndexOf, MachineStates, RefreshMatched, RefreshUnmatched, DiscoveredVM, Unlisted;
    var ix := IndexOf(agents);
    DiscoveredExactly(agents, MatchedNames(vms, ix), KnownNames(vms), MachineStates(machines), now, vm);
    var all := RefreshAll(vms, ix, MachineStates(machines), now);
    assert Refresh(vms, agents, machines, now)[|vms|..]
        == Discovered(agents, MatchedNames(vms, ix), KnownNames(vms), MachineStates(machines), now);
  }

  /** Preparing an Agent marks the first VM of the assigned name and no other. */
  lemma {:induction false} MarkOutcome(vms: seq<OwnedVM>, p: Preparation, i: nat)
    requires i <= |vms| && (forall j :: 0 <= j < i ==> vms[j].name != p.hostname)
    requires i < |vms| ==> vms[i].name == p.hostname
    ensures var r := MarkFirst(vms, p);
            && |r| == |vms| && (forall j :: 0 <= j < |vms| && j != i ==> r[j] == vms[j])
            && (i < |vms| ==>
                  && r[i] == vms[i].(agentRef := Some(p.agent), machineRef := None, phase := Available,
                                     reason := OtherReason("AgentPrepared"), since := r[i].since)
                  && r[i].since == if vms[i].phase == Available && vms[i].reason == OtherReason("AgentPrepared")
                                   then vms[i].since else Some(p.now))
  {
    MarkFirstAt(vms, p, i);
  }

  // ---------- Merging ----------

  ghost predicate LastNamed(vms: seq<OwnedVM>, name: string, i: int) {
    name != "" && 0 <= i < |vms| && vms[i].name == name && forall j :: i < j < |vms| ==> vms[j].name != name
  }

  ghost predicate LastWithBIOS(vms: seq<OwnedVM>, uuid: string, i: int) {
    uuid != "" && 0 <= i < |vms| && vms[i].biosUUID == uuid && forall j :: i < j < |vms| ==> vms[j].biosUUID != uuid
  }

  ghost predicate LastWithMAC(vms: seq<OwnedVM>, mac: string, i: int) {
    mac != "" && 0 <= i < |vms| && vms[i].mac == mac && forall j :: i < j < |vms| ==> vms[j].mac != mac
  }

  lemma {:induction false} ByNameMeans(vms: seq<OwnedVM>, key: string)
    ensures forall i :: LastNamed(vms, key, i) ==> ByName(vms, key) == Some(vms[i])
    ensures (forall i :: !LastNamed(vms, key, i)) ==> ByName(vms, key) == None
  {
    if vms != [] && key != "" && vms[|vms| - 1].name != key {
      var before := vms[..|vms| - 1];
      ByNameMeans(before, key);
      assert forall i :: LastNamed(vms, key, i) <==> LastNamed(before, key, i);
    } else if vms != [] && key != "" {
      assert LastNamed(vms, key, |vms| - 1);
    }
  }

  lemma {:induction false} ByBIOSMeans(vms: seq<OwnedVM>, key: string)
    ensures forall i :: LastWithBIOS(vms, key, i) ==> ByBIOS(vms, key) == Some(vms[i])
    ensures (forall i :: !LastWithBIOS(vms, key, i)) ==> ByBIOS(vms, key) == None
  {
    if vms != [] && key != "" && vms[|vms| - 1].biosUUID != key {
      var before := vms[..|vms| - 1];
      ByBIOSMeans(before, key);
      assert forall i :: LastWithBIOS(vms, key, i) <==> LastWithBIOS(before, key, i);
    } else if vms != [] && key != "" {
      assert LastWithBIOS(vms, key, |vms| - 1);
    }
  }

  lemma {:induction false} ByMACMeans(vms: seq<OwnedVM>, key: string)
    ensures forall i :: LastWithMAC(vms, key, i) ==> ByMAC(vms, key) == Some(vms[i])
    ensures (forall i :: !LastWithMAC(vms, key, i)) ==> ByMAC(vms, key) == None
  {
    if vms != [] && key != "" && vms[|vms| - 1].mac != key {
      var before := vms[..|vms| - 1];
      ByMACMeans(before, key);
      assert forall i :: LastWithMAC(vms, key, i) <==> LastWithMAC(before, key, i);
    } else if vms != [] && key != "" {
      assert LastWithMAC(vms, key, |vms| - 1);
    }
  }

  /** The recorded entry of a VM: the last one of its name, else of its BIOS UUID, else of its MAC. */
  ghost predicate Recorded(previous: seq<OwnedVM>, vm: OwnedVM, i: int) {
    || LastNamed(previous, vm.name, i)
    || (&& (forall j :: !LastNamed(previous, vm.name, j))
        && (|| LastWithBIOS(previous, vm.biosUUID, i)
            || ((forall j :: !LastWithBIOS(previous, vm.biosUUID, j)) && LastWithMAC(previous, vm.mac, i))))
  }

  /** Owner or BIOS UUID are known on both sides and differ. */
  ghost predicate Exchanged(before: OwnedVM, vm: OwnedVM) {
    || (before.ownerUID != "" && vm.ownerUID != "" && before.ownerUID != vm.ownerUID)
    || (before.biosUUID != "" && vm.biosUUID != "" && before.biosUUID != vm.biosUUID)
  }

  /**
   * What merging makes of a current entry: the whole recorded lifecycle and whatever identity is
   * missing are taken over from its recorded entry, unless that shows another VM or there is none.
   */
  lemma MergeOutcome(previous: seq<OwnedVM>, vm: OwnedVM)
    ensures var r := MergeVM(previous, vm);
            && (forall i :: Recorded(previous, vm, i) && Exchanged(previous[i], vm) ==> r == vm)
            && (forall i :: Recorded(previous, vm, i) && !Exchanged(previous[i], vm) ==>
                  && r.phase == previous[i].phase && r.reason == previous[i].reason && r.since == previous[i].since
                  && r.agentRef == previous[i].agentRef && r.machineRef == previous[i].machineRef && r.name == vm.name
                  && r.biosUUID == (if vm.biosUUID == "" then previous[i].biosUUID else vm.biosUUID)
                  && r.ownerUID == (if vm.ownerUID == "" then previous[i].ownerUID else vm.ownerUID)
                  && r.mac == (if vm.mac == "" then previous[i].mac else vm.mac)
                  && r.source == (if vm.source == Unset then previous[i].source else vm.source))
            && ((forall i :: !Recorded(previous, vm, i)) ==> r == vm)
  {
    RecordedIsPrevious(previous, vm);
    hide Recorded, Previous;
  }

  lemma RecordedIsPrevious(previous: seq<OwnedVM>, vm: OwnedVM)
    ensures forall i :: Recorded(previous, vm, i) ==> 0 <= i < |previous| && Previous(previous, vm) == Some(previous[i])
    ensures (forall i :: !Recorded(previous, vm, i)) ==> Previous(previous, vm) == None
  {
    hide LastNamed, LastWithBIOS, LastWithMAC, ByName, ByBIOS, ByMAC;
    ByNameMeans(previous, vm.name);
    ByBIOSMeans(previous, vm.biosUUID);
    ByMACMeans(previous, vm.mac);
    RecordedInList(previous, vm);
    if i :| LastNamed(previous, vm.name, i) {
      assert Recorded(previous, vm, i);
    } else if i :| LastWithBIOS(previous, vm.biosUUID, i) {
      assert Recorded(previous, vm, i);
    } else if i :| LastWithMAC(previous, vm.mac, i) {
      assert Recorded(previous, vm, i);
    }
  }

  lemma RecordedInList(previous: seq<OwnedVM>, vm: OwnedVM)
    ensures forall i :: LastNamed(previous, vm.name, i) ==> 0 <= i < |previous|
    ensures forall i :: LastWithBIOS(previous, vm.biosUUID, i) ==> 0 <= i < |previous|
    ensures forall i :: LastWithMAC(previous, vm.mac, i) ==> 0 <= i < |previous|
  {}

  // ---------- Any number of refreshes without an Agent ----------

  /** The Machines listed at one refresh, and its time. */
  datatype Look = Look(machines: map<string, bool>, now: int)

  function Unmatched(vm: OwnedVM, looks: seq<Look>): OwnedVM {
    if looks == [] then vm
    else
      var n := |looks| - 1;
      RefreshUnmatched(Unmatched(vm, looks[..n]), looks[n].machines, looks[n].now)
  }

  function MachineOf(vm: OwnedVM): string {
    if vm.machineRef == None then "" else vm.machineRef.value
  }

  /** The Machine is not listed at refresh j; it is listed as being deleted. */
  ghost predicate Misses(looks: seq<Look>, m: string, j: int) {
    0 <= j < |looks| && m !in looks[j].machines
  }

  ghost predicate SeesDeletion(looks: seq<Look>, m: string, j: int) {
    0 <= j < |looks| && m in looks[j].machines && looks[j].machines[m]
  }

  /** Refresh j is the first that misses the Machine since it was last listed as being deleted. */
  ghost predicate FirstMiss(looks: seq<Look>, m: string, j: int) {
    && Misses(looks, m, j) && NoDeletionAfter(looks, m, j)
    && forall i :: 0 <= i < j && Misses(looks, m, i) ==> exists k :: i < k < j && SeesDeletion(looks, m, k)
  }

  ghost predicate NoDeletionAfter(looks: seq<Look>, m: string, j: int) {
    forall k :: SeesDeletion(looks, m, k) ==> k < j
  }

  lemma {:induction false} SomeFirstMiss(looks: seq<Look>, m: string, i: nat) returns (j: nat)
    requires Misses(looks, m, i) && NoDeletionAfter(looks, m, i)
    ensures FirstMiss(looks, m, j) && j <= i
    decreases i
  {
    if FirstMiss(looks, m, i) {
      j := i;
    } else {
      var h :| 0 <= h < i && Misses(looks, m, h) && forall k :: h < k < i ==> !SeesDeletion(looks, m, k);
      j := SomeFirstMiss(looks, m, h);
    }
  }

  /** One more refresh moves the first miss, keeps it or makes one. */
  lemma NextFirstMiss(looks: seq<Look>, m: string)
    requires looks != []
    ensures var n := |looks| - 1;
            && (SeesDeletion(looks, m, n) ==> forall j :: !FirstMiss(looks, m, j))
            && (!SeesDeletion(looks, m, n) && !Misses(looks, m, n) ==>
                  forall j :: FirstMiss(looks, m, j) <==> FirstMiss(looks[..n], m, j))
            && (Misses(looks, m, n) && (exists j :: FirstMiss(looks[..n], m, j)) ==>
                  forall j :: FirstMiss(looks, m, j) <==> FirstMiss(looks[..n], m, j))
            && (Misses(looks, m, n) && (forall j :: !FirstMiss(looks[..n], m, j)) ==>
                  forall j :: FirstMiss(looks, m, j) <==> j == n)
  {
    var n := |looks| - 1;
    var before := looks[..n];
    forall j | 0 <= j < n
      ensures Misses(looks, m, j) <==> Misses(before, m, j)
      ensures SeesDeletion(looks, m, j) <==> SeesDeletion(before, m, j)
    {
      assert before[j] == looks[j];
    }
    if !SeesDeletion(looks, m, n) {
      forall j | 0 <= j < n ensures FirstMiss(looks, m, j) <==> FirstMiss(before, m, j) {
        EarlierFirstMiss(looks, m, j);
      }
    }
    if Misses(looks, m, n) {
      if j :| FirstMiss(before, m, j) {
        assert !FirstMiss(looks, m, n) by {
          assert Misses(looks, m, j) && forall k :: j < k < n ==> !SeesDeletion(looks, m, k);
        }
      } else {
        LastIsFirstMiss(looks, m);
      }
    }
  }

  lemma EarlierFirstMiss(looks: seq<Look>, m: string, j: nat)
    requires looks != [] && j < |looks| - 1 && !SeesDeletion(looks, m, |looks| - 1)
    ensures FirstMiss(looks, m, j) <==> FirstMiss(looks[..|looks| - 1], m, j)
  {
    var before := looks[..|looks| - 1];
    assert forall k :: 0 <= k < |before| ==> before[k] == looks[k];
    assert forall k :: SeesDeletion(looks, m, k) <==> SeesDeletion(before, m, k);
    assert forall k :: 0 <= k < |before| ==> (Misses(looks, m, k) <==> Misses(before, m, k));
  }

  lemma LastIsFirstMiss(looks: seq<Look>, m: string)
    requires looks != [] && Misses(looks, m, |looks| - 1)
    requires var before := looks[..|looks| - 1]; forall j :: !FirstMiss(before, m, j)
    ensures FirstMiss(looks, m, |looks| - 1)
  {
    var n := |looks| - 1;
    var before := looks[..n];
    assert forall k :: 0 <= k < n ==> before[k] == looks[k];
    assert forall k :: SeesDeletion(looks, m, k) <==> SeesDeletion(before, m, k);
    forall i | 0 <= i < n && Misses(looks, m, i) ensures exists k :: i < k < n && SeesDeletion(looks, m, k) {
      assert Misses(before, m, i);
      if NoDeletionAfter(before, m, i) {
        var j := SomeFirstMiss(before, m, i);
        assert false;
      }
      var k :| SeesDeletion(before, m, k) && !(k < i);
      assert k != i && SeesDeletion(looks, m, k);
    }
  }

  /**
   * A VM that lost its Agent, over any refreshes and listings: it is orphaned if and only if some
   * refresh missed its Machine too, since the Machine was last listed as being deleted; and it is
   * deletable exactly half an hour after the first such refresh.
   */
  lemma {:induction false} MissingAgentHasGrace(vm: OwnedVM, looks: seq<Look>, now: int)
    requires Eligible(vm) && vm.phase != Orphaned
    requires !Unnamed(vm.agentRef) || vm.phase == Available || vm.phase == Bound || vm.phase == Released
    ensures var r := Unmatched(vm, looks);
            && r == vm.(phase := r.phase, reason := r.reason, since := r.since)
            && (r.phase == Orphaned || HadAgent(r))
            && (r.phase == Orphaned <==> exists j :: FirstMiss(looks, MachineOf(vm), j))
            && (forall j :: FirstMiss(looks, MachineOf(vm), j) ==>
                  && r.reason == AgentMissing && r.since == Some(looks[j].now)
                  && (OrphanDue(r, now) <==> now >= looks[j].now + 1800))
            && (OrphanDue(r, now) ==> r.phase == Orphaned)
    decreases |looks|
  {
    if looks != [] {
      var n, m := |looks| - 1, MachineOf(vm);
      MissingAgentHasGrace(vm, looks[..n], now);
      assert forall j :: 0 <= j < n ==> looks[..n][j] == looks[j];
      UnmatchedOutcome(Unmatched(vm, looks[..n]), looks[n].machines, looks[n].now);
      NextFirstMiss(looks, m);
      FirstMissInList(looks[..n], m);
      hide FirstMiss, RefreshUnmatched;
      if !SeesDeletion(looks, m, n) {
        if j :| FirstMiss(looks[..n], m, j) {
          assert FirstMiss(looks, m, j);
        } else if Misses(looks, m, n) {
          assert FirstMiss(looks, m, n);
        }
      }
    }
  }

  lemma FirstMissInList(looks: seq<Look>, m: string)
    ensures forall j :: FirstMiss(looks, m, j) ==> 0 <= j < |looks|
  {}

  /** As long as its Machine is listed, a VM without Agent is not deletable as an orphan. */
  lemma ListedMachineKeepsVM(vm: OwnedVM, looks: seq<Look>, now: int)
    requires Eligible(vm) && vm.phase != Orphaned
    requires !Unnamed(vm.agentRef) || vm.phase == Available || vm.phase == Bound || vm.phase == Released
    requires forall i :: 0 <= i < |looks| ==> MachineOf(vm) in looks[i].machines
    ensures !OrphanDue(Unmatched(vm, looks), now)
  {
    MissingAgentHasGrace(vm, looks, now);
    assert forall j :: !FirstMiss(looks, MachineOf(vm), j);
  }

  /**
   * A new VM, while no Machine of it is seen being deleted, is left alone until a refresh without
   * Machine comes after its discovery period; it is then deletable at once.
   */
  lemma {:induction false} NewVMHasDiscoveryPeriod(vm: OwnedVM, looks: seq<Look>, start: int, now: int)
    requires Eligible(vm) && vm.phase == ProvisioningVM && vm.reason == AgentNotDiscovered && Unnamed(vm.agentRef)
    requires vm.since == Some(start) && forall k :: !SeesDeletion(looks, MachineOf(vm), k)
    ensures var r := Unmatched(vm, looks);
            && r.since == Some(start) && Eligible(r) && r.machineRef == vm.machineRef
            && (r.phase == Orphaned <==>
                  exists i :: Misses(looks, MachineOf(vm), i) && looks[i].now >= start + 1800)
            && (r.phase != Orphaned ==> r == vm)
            && (OrphanDue(r, now) <==> r.phase == Orphaned && now >= start + 1800)
    decreases |looks|
  {
    if looks != [] {
      var n, m := |looks| - 1, MachineOf(vm);
      var before := looks[..n];
      assert forall i :: 0 <= i < n ==> before[i] == looks[i];
      forall k ensures !SeesDeletion(before, m, k) {
        assert SeesDeletion(before, m, k) ==> SeesDeletion(looks, m, k);
      }
      assert forall i :: 0 <= i < n ==> (Misses(before, m, i) <==> Misses(looks, m, i));
      NewVMHasDiscoveryPeriod(vm, before, start, now);
      UnmatchedOutcome(Unmatched(vm, before), looks[n].machines, looks[n].now);
      assert !SeesDeletion(looks, m, n);
      hide RefreshUnmatched;
      if i :| Misses(before, m, i) && before[i].now >= start + 1800 {
        assert Misses(looks, m, i);
      }
    }
  }
}
