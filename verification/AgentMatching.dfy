/**
 * Which Assisted Installer Agent belongs to which owned VM: hardware identity, and the identity
 * index with its ambiguity tracking.
 */
module AgentMatching {
  import opened Common

  datatype VMPhase = Available | Bound | Orphaned | ProvisioningVM | Released | NoPhase

  datatype Reason =
    | AgentReleased | AgentNotDiscovered | AgentBound | AgentAvailable | AgentMissing | AgentDiscoveryExpired
    | MachineDeleted | MachineDeleting | OtherReason(text: string)

  datatype Source = Unset | VsphereAgent | DiscoveredAgent

  /** OwnedVMStatus. The empty string means unknown; since is None for a zero time. */
  datatype OwnedVM = OwnedVM(
    name: string,
    ownerUID: string,
    source: Source,
    biosUUID: string,
    mac: string,
    agentRef: Option<string>,
    machineRef: Option<string>,
    phase: VMPhase,
    reason: Reason,
    since: Option<int>)

  /** AgentInfo: the part that matching and planning decide on. */
  datatype AgentInfo = AgentInfo(
    name: string,
    bound: bool,
    machineName: string,
    hostname: string,
    inventoryHostname: string,
    mac: string,
    biosUUID: string)

  function ObservedHostname(a: AgentInfo): string {
    if a.hostname != "" then a.hostname else a.inventoryHostname
  }

  // ---------- Hardware identity ----------

  /** vmMatchesAgentIdentity */
  predicate HardwareMatch(vm: OwnedVM, a: AgentInfo) {
    || (vm.biosUUID != "" && a.biosUUID != "" && vm.biosUUID == a.biosUUID)
    || (vm.mac != "" && a.mac != "" && vm.mac == a.mac)
  }

  /** vmIdentityConflictsAgent: something was comparable and nothing agreed. */
  predicate Conflicts(vm: OwnedVM, a: AgentInfo) {
    var biosKnown := vm.biosUUID != "" && a.biosUUID != "";
    var macKnown := vm.mac != "" && a.mac != "";
    if biosKnown && vm.biosUUID == a.biosUUID then false
    else if macKnown && vm.mac == a.mac then false
    else biosKnown || macKnown
  }

  /** vmMatchesAgentRef */
  predicate RefMatch(vm: OwnedVM, a: AgentInfo) {
    vm.agentRef == Some(a.name) && !Conflicts(vm, a)
  }

  /** The association used by agentsForVM. */
  predicate Associated(vm: OwnedVM, a: AgentInfo) {
    HardwareMatch(vm, a) || RefMatch(vm, a) || (vm.name == ObservedHostname(a) && !Conflicts(vm, a))
  }

  /**
   * An Agent is associated with a VM if and only if they share a known BIOS UUID or MAC, or if
   * neither can be compared and the VM records the Agent or carries its hostname.
   */
  lemma AssociatedIff(vm: OwnedVM, a: AgentInfo)
    ensures Associated(vm, a) <==>
              || (vm.biosUUID != "" && vm.biosUUID == a.biosUUID)
              || (vm.mac != "" && vm.mac == a.mac)
              || (&& (vm.biosUUID == "" || a.biosUUID == "") && (vm.mac == "" || a.mac == "")
                  && (vm.agentRef == Some(a.name)
                      || vm.name == if a.hostname != "" then a.hostname else a.inventoryHostname))
  {}

  /** A VM and an Agent contradict each other if and only if some key is known on both sides and none agrees. */
  lemma ConflictsIff(vm: OwnedVM, a: AgentInfo)
    ensures Conflicts(vm, a) <==>
              && ((vm.biosUUID != "" && a.biosUUID != "") || (vm.mac != "" && a.mac != ""))
              && (vm.biosUUID == "" || vm.biosUUID != a.biosUUID) && (vm.mac == "" || vm.mac != a.mac)
  {}

  // ---------- The identity index ----------

  datatype KeyKind = Hostname | BIOS | MAC

  function KeyOf(kind: KeyKind, a: AgentInfo): string {
    match kind
    case Hostname => ObservedHostname(a)
    case BIOS => a.biosUUID
    case MAC => a.mac
  }

  datatype SubIndex = SubIndex(entries: map<string, AgentInfo>, ambiguous: set<string>)

  datatype Index = Index(byName: map<string, AgentInfo>, hostname: SubIndex, bios: SubIndex, mac: SubIndex)

  /** addUniqueAgentIdentity */
  function AddUnique(ix: SubIndex, key: string, a: AgentInfo): SubIndex {
    if key == "" || key in ix.ambiguous then ix
    else if key in ix.entries && ix.entries[key].name != a.name then
      SubIndex(ix.entries - {key}, ix.ambiguous + {key})
    else
      SubIndex(ix.entries[key := a], ix.ambiguous)
  }

  function SubIndexOf(kind: KeyKind, agents: seq<AgentInfo>): SubIndex {
    if agents == [] then SubIndex(map[], {})
    else
      var n := |agents| - 1;
      AddUnique(SubIndexOf(kind, agents[..n]), KeyOf(kind, agents[n]), agents[n])
  }

  function NamesOf(agents: seq<AgentInfo>): map<string, AgentInfo> {
    if agents == [] then map[]
    else NamesOf(agents[..|agents| - 1])[agents[|agents| - 1].name := agents[|agents| - 1]]
  }

  function IndexOf(agents: seq<AgentInfo>): Index {
    Index(NamesOf(agents), SubIndexOf(Hostname, agents), SubIndexOf(BIOS, agents), SubIndexOf(MAC, agents))
  }

  /** newAgentIdentityLookup: one pass over the list fills the index. */
  method BuildIndex(agents: seq<AgentInfo>) returns (ix: Index)
    ensures ix == IndexOf(agents)
  {
    var byName: map<string, AgentInfo> := map[];
    var hostname, bios, mac := SubIndex(map[], {}), SubIndex(map[], {}), SubIndex(map[], {});
    for i := 0 to |agents|
      invariant byName == NamesOf(agents[..i])
      invariant hostname == SubIndexOf(Hostname, agents[..i])
      invariant bios == SubIndexOf(BIOS, agents[..i])
      invariant mac == SubIndexOf(MAC, agents[..i])
    {
      var a := agents[i];
      assert agents[..i + 1][..i] == agents[..i];
      byName := byName[a.name := a];
      hostname := AddUnique(hostname, ObservedHostname(a), a);
      bios := AddUnique(bios, a.biosUUID, a);
      mac := AddUnique(mac, a.mac, a);
    }
    assert agents[..|agents|] == agents;
    ix := Index(byName, hostname, bios, mac);
  }

  /** Agent i bears the key. */
  ghost predicate Bears(kind: KeyKind, agents: seq<AgentInfo>, key: string, i: int) {
    0 <= i < |agents| && KeyOf(kind, agents[i]) == key
  }

  /** The key belongs to one Agent name. */
  ghost predicate OneBearer(kind: KeyKind, agents: seq<AgentInfo>, key: string) {
    && (exists i :: Bears(kind, agents, key, i))
    && (forall i, j :: Bears(kind, agents, key, i) && Bears(kind, agents, key, j) ==> agents[i].name == agents[j].name)
  }

  /** Agent a is the last one in the list that bears the key. */
  ghost predicate LastBearer(kind: KeyKind, agents: seq<AgentInfo>, key: string, a: AgentInfo) {
    exists i :: Bears(kind, agents, key, i) && agents[i] == a && forall j :: Bears(kind, agents, key, j) ==> j <= i
  }

  ghost predicate TwoBearers(kind: KeyKind, agents: seq<AgentInfo>, key: string) {
    exists i, j :: Bears(kind, agents, key, i) && Bears(kind, agents, key, j) && agents[i].name != agents[j].name
  }

  /** The incremental index is its specification: a key resolves iff all its bearers share one name. */
  lemma {:induction false} IndexMeaning(kind: KeyKind, agents: seq<AgentInfo>, key: string)
    requires key != ""
    ensures var ix := SubIndexOf(kind, agents);
            && (key in ix.entries <==> OneBearer(kind, agents, key))
            && (key in ix.ambiguous <==> TwoBearers(kind, agents, key))
            && (key in ix.entries ==> LastBearer(kind, agents, key, ix.entries[key]))
  {
    if agents == [] {
      return;
    }
    hide OneBearer, TwoBearers, LastBearer, Bears;
    var n := |agents| - 1;
    IndexMeaning(kind, agents[..n], key);
    if KeyOf(kind, agents[n]) != key {
      SameLastBearer(kind, agents, key);
    } else {
      LastAgentBears(kind, agents, key);
      var ix := SubIndexOf(kind, agents[..n]);
      if key in ix.entries {
        OneBearerIsLast(kind, agents[..n], key, ix.entries[key]);
      } else if key in ix.ambiguous {
        TwoBearersDisagree(kind, agents[..n], key, agents[n].name);
      } else {
        NoBearer(kind, agents[..n], key);
      }
    }
  }

  lemma OneBearerIsLast(kind: KeyKind, agents: seq<AgentInfo>, key: string, last: AgentInfo)
    requires OneBearer(kind, agents, key) && LastBearer(kind, agents, key, last)
    ensures !TwoBearers(kind, agents, key)
    ensures forall name :: AllBear(kind, agents, key, name) <==> last.name == name
  {}

  lemma TwoBearersDisagree(kind: KeyKind, agents: seq<AgentInfo>, key: string, name: string)
    requires TwoBearers(kind, agents, key)
    ensures !AllBear(kind, agents, key, name)
  {}

  lemma NoBearer(kind: KeyKind, agents: seq<AgentInfo>, key: string)
    requires !OneBearer(kind, agents, key) && !TwoBearers(kind, agents, key)
    ensures forall name :: AllBear(kind, agents, key, name)
  {}

  /** Every bearer of the key has the given name. */
  ghost predicate AllBear(kind: KeyKind, agents: seq<AgentInfo>, key: string, name: string) {
    forall i :: Bears(kind, agents, key, i) ==> agents[i].name == name
  }

  lemma SameLastBearer(kind: KeyKind, agents: seq<AgentInfo>, key: string)
    requires agents != [] && KeyOf(kind, agents[|agents| - 1]) != key
    ensures var before := agents[..|agents| - 1];
            && (OneBearer(kind, before, key) <==> OneBearer(kind, agents, key))
            && (TwoBearers(kind, before, key) <==> TwoBearers(kind, agents, key))
            && (forall a :: LastBearer(kind, before, key, a) ==> LastBearer(kind, agents, key, a))
  {
    var before := agents[..|agents| - 1];
    assert forall i :: Bears(kind, before, key, i) <==> Bears(kind, agents, key, i);
  }

  lemma LastAgentBears(kind: KeyKind, agents: seq<AgentInfo>, key: string)
    requires agents != [] && KeyOf(kind, agents[|agents| - 1]) == key
    ensures var n := |agents| - 1;
            && LastBearer(kind, agents, key, agents[n])
            && (OneBearer(kind, agents, key) <==> AllBear(kind, agents[..n], key, agents[n].name))
            && (TwoBearers(kind, agents, key) <==> !AllBear(kind, agents[..n], key, agents[n].name))
  {}

  // ---------- Lookup ----------

  function LookUnique(ix: SubIndex, key: string): Option<AgentInfo> {
    if key != "" && key !in ix.ambiguous && key in ix.entries then Some(ix.entries[key]) else None
  }

  function Compatible(vm: OwnedVM, candidate: Option<AgentInfo>): Option<AgentInfo> {
    if candidate.Some? && !Conflicts(vm, candidate.value) then candidate else None
  }

  function OrElse(first: Option<AgentInfo>, second: Option<AgentInfo>): Option<AgentInfo> {
    if first.Some? then first else second
  }

  function LookName(ix: Index, name: Option<string>): Option<AgentInfo> {
    if name.Some? && name.value != "" && name.value in ix.byName then Some(ix.byName[name.value]) else None
  }

  /** agentIdentityLookup.match: BIOS UUID, MAC, hostname, recorded Agent name, in that order. */
  function Match(ix: Index, vm: OwnedVM): Option<AgentInfo> {
    OrElse(LookUnique(ix.bios, vm.biosUUID),
      OrElse(LookUnique(ix.mac, vm.mac),
        OrElse(Compatible(vm, LookUnique(ix.hostname, vm.name)),
          Compatible(vm, LookName(ix, vm.agentRef)))))
  }

  lemma {:induction false} NamesMeaning(agents: seq<AgentInfo>, name: string)
    ensures name in NamesOf(agents) <==> exists i :: 0 <= i < |agents| && agents[i].name == name
    ensures name in NamesOf(agents) ==> NamesOf(agents)[name] in agents && NamesOf(agents)[name].name == name
  {
    if agents != [] {
      var n := |agents| - 1;
      NamesMeaning(agents[..n], name);
      assert agents == agents[..n] + [agents[n]];
      if agents[n].name != name && exists i :: 0 <= i < |agents| && agents[i].name == name {
        var i :| 0 <= i < |agents| && agents[i].name == name;
        assert agents[..n][i].name == name;
      }
    }
  }

  lemma LookUniqueMeaning(kind: KeyKind, agents: seq<AgentInfo>, key: string)
    ensures var r := LookUnique(SubIndexOf(kind, agents), key);
            && (r.Some? <==> key != "" && OneBearer(kind, agents, key))
            && (r.Some? ==> r.value in agents && KeyOf(kind, r.value) == key)
  {
    if key != "" {
      IndexMeaning(kind, agents, key);
    }
  }

  /** Whatever matches is a listed Agent whose hardware identity does not contradict the VM. */
  lemma MatchNeverConflicts(agents: seq<AgentInfo>, vm: OwnedVM)
    ensures var r := Match(IndexOf(agents), vm);
            r.Some? ==> r.value in agents && !Conflicts(vm, r.value)
  {
    LookUniqueMeaning(BIOS, agents, vm.biosUUID);
    LookUniqueMeaning(MAC, agents, vm.mac);
    LookUniqueMeaning(Hostname, agents, vm.name);
    if vm.agentRef.Some? {
      NamesMeaning(agents, vm.agentRef.value);
    }
  }

  /** Whatever matches is associated, so a VM that is refreshed from an Agent is never deleted past it. */
  lemma MatchIsAssociated(agents: seq<AgentInfo>, vm: OwnedVM)
    ensures var r := Match(IndexOf(agents), vm); r.Some? ==> Associated(vm, r.value)
  {
    LookUniqueMeaning(BIOS, agents, vm.biosUUID);
    LookUniqueMeaning(MAC, agents, vm.mac);
    LookUniqueMeaning(Hostname, agents, vm.name);
    if vm.agentRef.Some? {
      NamesMeaning(agents, vm.agentRef.value);
    }
  }

  /** Agent i alone bears the key. */
  ghost predicate Sole(kind: KeyKind, agents: seq<AgentInfo>, key: string, i: int) {
    key != "" && Bears(kind, agents, key, i) && forall j :: Bears(kind, agents, key, j) ==> j == i
  }

  lemma SoleIsFound(kind: KeyKind, agents: seq<AgentInfo>, key: string)
    requires UniqueNames(agents)
    ensures forall i :: Sole(kind, agents, key, i) ==>
              LookUnique(SubIndexOf(kind, agents), key) == Some(agents[i])
    ensures (forall i :: !Sole(kind, agents, key, i)) ==> LookUnique(SubIndexOf(kind, agents), key) == None
  {
    LookUniqueMeaning(kind, agents, key);
    var r := LookUnique(SubIndexOf(kind, agents), key);
    if r.Some? {
      var i :| 0 <= i < |agents| && agents[i] == r.value;
      assert Bears(kind, agents, key, i);
      assert Sole(kind, agents, key, i);
    }
  }

  /**
   * Which Agent matches: the one that alone bears the VM's BIOS UUID; without such an Agent the one
   * that alone bears its MAC; then the one that alone bears its name as hostname and the one that it
   * records, each unless it contradicts the VM. With unique names this determines the match.
   */
  lemma MatchOrder(agents: seq<AgentInfo>, vm: OwnedVM, i: nat)
    requires UniqueNames(agents) && i < |agents|
    ensures var r := Match(IndexOf(agents), vm);
            && (Sole(BIOS, agents, vm.biosUUID, i) ==> r == Some(agents[i]))
            && ((forall j :: !Sole(BIOS, agents, vm.biosUUID, j)) ==>
                  && (Sole(MAC, agents, vm.mac, i) ==> r == Some(agents[i]))
                  && ((forall j :: !Sole(MAC, agents, vm.mac, j)) ==>
                        && (Sole(Hostname, agents, vm.name, i) && !Conflicts(vm, agents[i]) ==> r == Some(agents[i]))
                        && ((forall j :: Sole(Hostname, agents, vm.name, j) ==> Conflicts(vm, agents[j])) ==>
                              (r == Some(agents[i]) <==>
                                 && vm.agentRef == Some(agents[i].name) && agents[i].name != ""
                                 && !Conflicts(vm, agents[i])))))
  {
    hide Sole, LookUnique, SubIndexOf, NamesOf, Conflicts;
    SoleIsFound(BIOS, agents, vm.biosUUID);
    SoleIsFound(MAC, agents, vm.mac);
    SoleIsFound(Hostname, agents, vm.name);
    RecordedIsFound(agents, vm, i);
    SoleInList(agents, vm.name);
  }

  lemma SoleInList(agents: seq<AgentInfo>, key: string)
    ensures forall i :: Sole(Hostname, agents, key, i) ==> 0 <= i < |agents|
  {}

  lemma RecordedIsFound(agents: seq<AgentInfo>, vm: OwnedVM, i: nat)
    requires UniqueNames(agents) && i < |agents|
    ensures LookName(IndexOf(agents), vm.agentRef) == Some(agents[i]) <==>
              vm.agentRef == Some(agents[i].name) && agents[i].name != ""
  {
    if vm.agentRef.Some? {
      NamesMeaning(agents, vm.agentRef.value);
      if vm.agentRef.value == agents[i].name {
        assert agents[i] in agents;
        UniqueByName(agents, NamesOf(agents)[agents[i].name], agents[i]);
      }
    }
  }

  ghost predicate UniqueNames(agents: seq<AgentInfo>) {
    forall i, j :: 0 <= i < j < |agents| ==> agents[i].name != agents[j].name
  }

  ghost predicate SameAgents(x: seq<AgentInfo>, y: seq<AgentInfo>) {
    forall a :: a in x <==> a in y
  }

  lemma OneBearerUpToOrder(kind: KeyKind, x: seq<AgentInfo>, y: seq<AgentInfo>, key: string)
    requires SameAgents(x, y) && OneBearer(kind, x, key)
    ensures OneBearer(kind, y, key)
  {
    var i :| Bears(kind, x, key, i);
    assert x[i] in y;
    var j :| 0 <= j < |y| && y[j] == x[i];
    assert Bears(kind, y, key, j);
    forall k, l | Bears(kind, y, key, k) && Bears(kind, y, key, l) ensures y[k].name == y[l].name {
      assert y[k] in x && y[l] in x;
      var k' :| 0 <= k' < |x| && x[k'] == y[k];
      var l' :| 0 <= l' < |x| && x[l'] == y[l];
      assert Bears(kind, x, key, k') && Bears(kind, x, key, l');
    }
  }

  lemma UniqueByName(agents: seq<AgentInfo>, a: AgentInfo, b: AgentInfo)
    requires UniqueNames(agents) && a in agents && b in agents && a.name == b.name
    ensures a == b
  {}

  lemma LookUniqueUpToOrder(kind: KeyKind, x: seq<AgentInfo>, y: seq<AgentInfo>, key: string)
    requires SameAgents(x, y) && UniqueNames(x)
    ensures LookUnique(SubIndexOf(kind, x), key) == LookUnique(SubIndexOf(kind, y), key)
  {
    LookUniqueMeaning(kind, x, key);
    LookUniqueMeaning(kind, y, key);
    if OneBearer(kind, x, key) { OneBearerUpToOrder(kind, x, y, key); }
    if OneBearer(kind, y, key) { OneBearerUpToOrder(kind, y, x, key); }
    var r, r' := LookUnique(SubIndexOf(kind, x), key), LookUnique(SubIndexOf(kind, y), key);
    if r.Some? {
      var i :| 0 <= i < |x| && x[i] == r.value;
      assert r'.value in x;
      var j :| 0 <= j < |x| && x[j] == r'.value;
      assert Bears(kind, x, key, i) && Bears(kind, x, key, j);
      UniqueByName(x, r.value, r'.value);
    }
  }

  lemma LookNameUpToOrder(x: seq<AgentInfo>, y: seq<AgentInfo>, name: Option<string>)
    requires SameAgents(x, y) && UniqueNames(x)
    ensures LookName(IndexOf(x), name) == LookName(IndexOf(y), name)
  {
    if name.Some? {
      NamesMeaning(x, name.value);
      NamesMeaning(y, name.value);
      if name.value in NamesOf(x) {
        assert NamesOf(x)[name.value] in y;
      }
      if name.value in NamesOf(y) {
        assert NamesOf(y)[name.value] in x;
      }
      if name.value in NamesOf(x) && name.value in NamesOf(y) {
        UniqueByName(x, NamesOf(x)[name.value], NamesOf(y)[name.value]);
      }
    }
  }

  /** The order in which the API server lists Agents does not matter. */
  lemma MatchIgnoresListOrder(x: seq<AgentInfo>, y: seq<AgentInfo>, vm: OwnedVM)
    requires SameAgents(x, y) && UniqueNames(x)
    ensures Match(IndexOf(x), vm) == Match(IndexOf(y), vm)
  {
    hide LookUnique, LookName, SubIndexOf, NamesOf;
    LookUniqueUpToOrder(BIOS, x, y, vm.biosUUID);
    LookUniqueUpToOrder(MAC, x, y, vm.mac);
    LookUniqueUpToOrder(Hostname, x, y, vm.name);
    LookNameUpToOrder(x, y, vm.agentRef);
  }
}
