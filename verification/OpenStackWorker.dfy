/**
 * The write-ahead create journal and the cleanup sequence of one OpenStackAgent.
 *
 * Every action is one API call, one in-memory update between calls, or one move of the
 * environment. Guards mention only what the process itself read, wrote or remembers.
 * A crash (Stop) may follow any action. The shared image cache is in OpenStackCache.
 */
module OpenStackWorker {
  import opened Common
  import opened OpenStackTypes

  datatype LocalAction =
    // environment
    | MarkDeleting
    | DemandDisappears
    | BecomesListed(id: nat)
    | Vanishes(id: nat)
    // reconcile life cycle; Stop is both the normal end and a crash
    | AddFinalizer
    | Start
    | Stop
    | ObserveDemandAbsent
    | StatusWritten
    | SetPhase(phase: Phase)
    // provisioning
    | SetPending(kind: Kind)
    | Post(kind: Kind, replied: bool)
    | PostRejected(kind: Kind)
    | RecordFound(kind: Kind, id: nat)
    | RecordMAC
    | RecordAgent
    | Download(digest: Digest)
    | PinCacheName(key: CacheKey)
    | PinImageID
    | EnterRefresh
    | ClearImageIdentity
    // cleanup
    | BeginCleanup
    | FoundNoResource(kind: Kind)
    | GotNoResource(kind: Kind)
    | ForgetPending(kind: Kind, id: nat)
    | RequestDelete(kind: Kind, id: nat)
    | RemoveFinalizer
    | RetainAndRelease

  /** A reconcile is on the provisioning path and is not finishing a refresh. */
  predicate Provisioning(wk: Worker) {
    && wk.mem.Some?
    && !wk.mem.value.cleanup
    && !wk.mem.value.released
    && wk.mem.value.status.phase != RefreshingDiscoveryImage
  }

  /** A reconcile is in cleanup and CAPI demand was seen to be gone. */
  predicate CleaningUp(wk: Worker) {
    && wk.mem.Some?
    && wk.mem.value.cleanup
    && wk.mem.value.demandAbsent
    && wk.mem.value.status.phase == Deleting
    && !wk.policy.retainAll
  }

  /** A name lookup returns nothing: every resource of the kind is hidden or gone. */
  predicate NothingListed(cloud: seq<Resource>, k: Kind) {
    forall i :: 0 <= i < |cloud| && cloud[i].kind == k ==> !cloud[i].listed || cloud[i].gone
  }

  /** Nothing is pending, everything the kind needs is recorded, and its image was seen active. */
  predicate CanSetPending(wk: Worker, k: Kind) {
    && Provisioning(wk)
    && wk.mem.value.status.pendingCreate == None
    && k !in wk.mem.value.status.ids
    && Prerequisites(wk.mem.value.status, k)
    && (k == DiscoveryVolume || k == Server ==> wk.mem.value.ready == wk.mem.value.status.imageID)
  }

  predicate CanRecordFound(wk: Worker, k: Kind, i: nat) {
    && Provisioning(wk)
    && i < |wk.cloud| && wk.cloud[i].kind == k && wk.cloud[i].listed && !wk.cloud[i].gone
    && k !in wk.mem.value.status.ids
    && (wk.mem.value.status.pendingCreate == None || wk.mem.value.status.pendingCreate == Some(k))
  }

  predicate LocalEnabled(wk: Worker, a: LocalAction) {
    match a
    case MarkDeleting => true
    case DemandDisappears => true
    case BecomesListed(i) => i < |wk.cloud|
    case Vanishes(i) => i < |wk.cloud|
    case AddFinalizer => wk.finalizer == Never && !wk.deleting && wk.mem.None?
    case Start => wk.finalizer == Held && wk.mem.None?
    case Stop => wk.mem.Some?
    case ObserveDemandAbsent => wk.mem.Some? && !wk.demand
    case StatusWritten => wk.mem.Some?
    case SetPhase(p) =>
      && wk.mem.Some?
      && wk.mem.value.status.phase != RefreshingDiscoveryImage
      && (p == Progress || p == Failed)
    case SetPending(k) => CanSetPending(wk, k)
    case Post(k, _) => Provisioning(wk) && wk.mem.value.armed == Some(k)
    case PostRejected(k) => Provisioning(wk) && wk.mem.value.armed == Some(k)
    case RecordFound(k, i) => CanRecordFound(wk, k, i)
    case RecordMAC => Provisioning(wk) && Port in wk.mem.value.status.ids
    case RecordAgent => Provisioning(wk) && Server in wk.mem.value.status.ids
    case Download(_) => Provisioning(wk)
    case PinCacheName(key) =>
      && Provisioning(wk)
      && wk.mem.value.status.cacheName == None
      && wk.mem.value.snapshot == Some(key.digest)
      && BlankMachine(wk.mem.value.status)
    case PinImageID =>
      && Provisioning(wk)
      && wk.mem.value.status.imageID == None
      && wk.mem.value.holding.Some?
    case EnterRefresh => Provisioning(wk) && CanRefresh(wk.mem.value.status)
    case ClearImageIdentity =>
      && wk.mem.Some? && !wk.mem.value.cleanup && wk.mem.value.released
      && wk.mem.value.status.phase == RefreshingDiscoveryImage
      && CanRefresh(wk.mem.value.status)
    case BeginCleanup => wk.mem.Some? && wk.mem.value.cleanup
    case FoundNoResource(k) =>
      && CleaningUp(wk)
      && k !in wk.mem.value.status.ids
      && wk.mem.value.status.pendingCreate != Some(k)
      && NothingListed(wk.cloud, k)
    case GotNoResource(k) =>
      && CleaningUp(wk)
      && k in wk.mem.value.status.ids
      && wk.mem.value.status.ids[k] < |wk.cloud|
      && wk.cloud[wk.mem.value.status.ids[k]].gone
    case ForgetPending(k, i) =>
      && CleaningUp(wk)
      && wk.mem.value.status.pendingCreate == Some(k)
      && i < |wk.cloud| && wk.cloud[i].kind == k && wk.cloud[i].listed && !wk.cloud[i].gone
    case RequestDelete(k, i) =>
      && CleaningUp(wk)
      && DeletedBefore(k, wk.policy) <= wk.mem.value.absent
      && (k == OSVolume ==> !wk.policy.retainOSVolume)
      && i < |wk.cloud| && wk.cloud[i].kind == k
    case RemoveFinalizer =>
      && CleaningUp(wk)
      && wk.finalizer == Held
      && DeletedKinds(wk.policy) <= wk.mem.value.absent
      && wk.mem.value.released
    case RetainAndRelease =>
      wk.mem.Some? && wk.mem.value.cleanup && wk.finalizer == Held && wk.policy.retainAll
  }

  function WithMem(wk: Worker, m: Memory): Worker {
    wk.(mem := Some(m))
  }

  function WithStatus(wk: Worker, st: Status): Worker
    requires wk.mem.Some?
  {
    wk.(mem := Some(wk.mem.value.(status := st)))
  }

  /** A recorded server also records that the instance was created. */
  function Recorded(st: Status, k: Kind, id: nat): Status {
    st.(ids := st.ids[k := id], pendingCreate := None, instanceCreated := st.instanceCreated || k == Server)
  }

  /** The journal entry becomes durable here; only a new entry arms the POST. */
  function AfterStatusWrite(wk: Worker): Worker
    requires wk.mem.Some?
  {
    var m := wk.mem.value;
    var journaled := m.status.pendingCreate.Some? && m.status.pendingCreate != wk.status.pendingCreate && !m.cleanup;
    wk.(status := m.status,
        mem := Some(m.(armed := if journaled then m.status.pendingCreate else m.armed)))
  }

  function AfterPost(wk: Worker, k: Kind, replied: bool): Worker
    requires wk.mem.Some?
  {
    var m := wk.mem.value.(armed := None);
    wk.(cloud := wk.cloud + [Resource(k, false, false, false)],
        mem := Some(if replied then m.(status := Recorded(m.status, k, |wk.cloud|)) else m))
  }

  function AfterRejection(wk: Worker): Worker
    requires wk.mem.Some?
  {
    var m := wk.mem.value;
    WithMem(wk, m.(armed := None, status := m.status.(pendingCreate := None)))
  }

  function AfterRecording(wk: Worker, k: Kind, i: nat): Worker
    requires wk.mem.Some?
  {
    var m := wk.mem.value;
    WithMem(wk, m.(armed := None, status := Recorded(m.status, k, i)))
  }

  function LocalNext(wk: Worker, a: LocalAction): (r: Worker)
    requires LocalEnabled(wk, a)
  {
    match a
    case MarkDeleting => wk.(deleting := true)
    case DemandDisappears => wk.(demand := false)
    case BecomesListed(i) => wk.(cloud := wk.cloud[i := wk.cloud[i].(listed := true)])
    case Vanishes(i) => wk.(cloud := wk.cloud[i := wk.cloud[i].(gone := true)])
    case AddFinalizer => wk.(finalizer := Held)
    case Start => wk.(mem := Some(FreshMemory(wk.status, wk.deleting)))
    case Stop => wk.(mem := None)
    case ObserveDemandAbsent => WithMem(wk, wk.mem.value.(demandAbsent := true))
    case StatusWritten => AfterStatusWrite(wk)
    case SetPhase(p) => WithStatus(wk, wk.mem.value.status.(phase := p))
    case SetPending(k) => WithStatus(wk, wk.mem.value.status.(pendingCreate := Some(k)))
    case Post(k, replied) => AfterPost(wk, k, replied)
    case PostRejected(k) => AfterRejection(wk)
    case RecordFound(k, i) => AfterRecording(wk, k, i)
    case RecordMAC => WithStatus(wk, wk.mem.value.status.(macKnown := true))
    case RecordAgent => WithStatus(wk, wk.mem.value.status.(agentKnown := true))
    case Download(d) => WithMem(wk, wk.mem.value.(snapshot := Some(d)))
    case PinCacheName(key) =>
      WithStatus(wk, wk.mem.value.status.(cacheName := Some(key), isoDigest := Some(key.digest)))
    case PinImageID => WithStatus(wk, wk.mem.value.status.(imageID := wk.mem.value.holding))
    case EnterRefresh => WithStatus(wk, wk.mem.value.status.(phase := RefreshingDiscoveryImage))
    case ClearImageIdentity =>
      WithStatus(wk, wk.mem.value.status.(cacheName := None, imageID := None, isoDigest := None, phase := Progress))
    case BeginCleanup => WithStatus(wk, wk.mem.value.status.(phase := Deleting))
    case FoundNoResource(k) => WithMem(wk, wk.mem.value.(absent := wk.mem.value.absent + {k}))
    case GotNoResource(k) => WithMem(wk, wk.mem.value.(absent := wk.mem.value.absent + {k}))
    case ForgetPending(k, i) => WithStatus(wk, wk.mem.value.status.(pendingCreate := None))
    case RequestDelete(k, i) => wk.(cloud := wk.cloud[i := wk.cloud[i].(deleteRequested := true)])
    case RemoveFinalizer => wk.(finalizer := Removed)
    case RetainAndRelease => wk.(finalizer := Retained)
  }

  // ---------- What every action keeps ----------

  /** Kind k is recorded or journaled. */
  ghost predicate Requested(st: Status, k: Kind) {
    k in st.ids || st.pendingCreate == Some(k)
  }

  /** Recorded IDs name resources of their kind. */
  ghost predicate IdsOK(st: Status, cloud: seq<Resource>) {
    forall k :: k in st.ids ==> st.ids[k] < |cloud| && cloud[st.ids[k]].kind == k
  }

  /** Shape of a stored or in-memory status. */
  ghost predicate StatusOK(st: Status) {
    && (st.pendingCreate.Some? ==> st.pendingCreate.value !in st.ids)
    && (Requested(st, OSVolume) ==> Prerequisites(st, OSVolume))
    && (Requested(st, DiscoveryVolume) ==> Prerequisites(st, DiscoveryVolume))
    && (Requested(st, Server) ==> Prerequisites(st, Server))
    && (st.imageID.Some? ==> st.cacheName.Some?)
    && (st.cacheName.Some? ==> st.isoDigest == Some(st.cacheName.value.digest) && BlankMachine(st))
    && (st.phase == RefreshingDiscoveryImage ==> CanRefresh(st))
    && (st.agentKnown || st.instanceCreated ==> Server in st.ids)
    && (st.macKnown ==> Port in st.ids)
  }

  /** No later reconcile can provision: deletion is recorded and no provisioning reconcile runs. */
  ghost predicate ClosedForCreates(wk: Worker) {
    wk.deleting && (wk.mem.Some? ==> wk.mem.value.cleanup)
  }

  /** A resource is recorded, journaled, or (once creates are over) visible to lookups. */
  ghost predicate Accounted(r: Resource, id: nat, closed: bool, st: Status) {
    || (r.kind in st.ids && st.ids[r.kind] == id)
    || st.pendingCreate == Some(r.kind)
    || (closed && r.listed)
  }

  ghost predicate AllAccounted(wk: Worker, st: Status) {
    forall i :: 0 <= i < |wk.cloud| ==> Accounted(wk.cloud[i], i, ClosedForCreates(wk), st)
  }

  ghost predicate OneOfEachKind(cloud: seq<Resource>) {
    forall i, j :: 0 <= i < j < |cloud| ==> cloud[i].kind != cloud[j].kind
  }

  ghost predicate NoneOfKind(cloud: seq<Resource>, k: Kind) {
    forall i :: 0 <= i < |cloud| ==> cloud[i].kind != k
  }

  ghost predicate AllGone(cloud: seq<Resource>, ks: set<Kind>) {
    forall i :: 0 <= i < |cloud| && cloud[i].kind in ks ==> cloud[i].gone
  }

  /** Clearing the image identity and the refresh journal together. */
  ghost function Cleared(st: Status): Status {
    st.(cacheName := None, imageID := None, isoDigest := None, phase := Progress)
  }

  /** A delete was issued only without demand, in order, after everything before it was gone. */
  ghost predicate DeletesJustified(wk: Worker) {
    forall i :: 0 <= i < |wk.cloud| && wk.cloud[i].deleteRequested ==>
      && !wk.demand
      && ClosedForCreates(wk)
      && wk.finalizer != Never
      && !wk.policy.retainAll
      && (wk.cloud[i].kind == OSVolume ==> !wk.policy.retainOSVolume)
      && AllGone(wk.cloud, DeletedBefore(wk.cloud[i].kind, wk.policy))
  }

  ghost predicate MemoryOK(wk: Worker)
    requires wk.mem.Some?
  {
    var m := wk.mem.value;
    && StatusOK(m.status)
    && IdsOK(m.status, wk.cloud)
    && AllAccounted(wk, m.status)
    && (forall k :: k in wk.status.ids ==> k in m.status.ids && m.status.ids[k] == wk.status.ids[k])
    && (m.cleanup ==> wk.deleting && m.armed == None)
    && (m.demandAbsent ==> !wk.demand)
    && (m.armed.Some? ==>
          m.status.pendingCreate == wk.status.pendingCreate == m.armed && NoneOfKind(wk.cloud, m.armed.value))
    && (m.absent != {} ==> m.cleanup)
    && (m.holding.Some? ==> m.status.cacheName.Some? && !m.released)
    && AllGone(wk.cloud, m.absent)
    && ImageIdentityKept(wk)
  }

  /** Within one reconcile the image identity changes only by the refresh protocol. */
  ghost predicate ImageIdentityKept(wk: Worker)
    requires wk.mem.Some?
  {
    var m := wk.mem.value;
    && (!m.cleanup && wk.status.phase == RefreshingDiscoveryImage ==>
          m.status == wk.status
          || (m.released && m.status.phase != RefreshingDiscoveryImage &&
             m.status.(phase := Progress) == Cleared(wk.status)))
    && (!m.cleanup && m.released && m.status.phase == RefreshingDiscoveryImage ==>
          wk.status.phase == RefreshingDiscoveryImage)
    && (m.cleanup || wk.status.phase != RefreshingDiscoveryImage ==>
          && (wk.status.cacheName.Some? ==> m.status.cacheName == wk.status.cacheName)
          && (wk.status.imageID.Some? ==> m.status.imageID == wk.status.imageID))
  }

  ghost predicate FinalizerOK(wk: Worker) {
    && (wk.finalizer == Never ==> wk.cloud == [] && wk.mem.None?)
    && (wk.finalizer == Removed || wk.finalizer == Retained ==> ClosedForCreates(wk))
    && (wk.finalizer == Removed ==> AllGone(wk.cloud, DeletedKinds(wk.policy)))
  }

  ghost predicate LocalInv(wk: Worker) {
    && StatusOK(wk.status)
    && IdsOK(wk.status, wk.cloud)
    && OneOfEachKind(wk.cloud)
    && AllAccounted(wk, wk.status)
    && DeletesJustified(wk)
    && FinalizerOK(wk)
    && (wk.mem.Some? ==> MemoryOK(wk))
  }

  // ---------- Two shapes of change ----------

  /** Only process memory changes, in the same mode. */
  lemma MemoryEditKeeps(wk: Worker, m: Memory)
    requires LocalInv(wk) && wk.mem.Some? && m.cleanup == wk.mem.value.cleanup
    requires MemoryOK(WithMem(wk, m))
    ensures LocalInv(WithMem(wk, m))
  {}

  lemma SameRequestsAccounted(wk: Worker, wk': Worker, st: Status, st': Status)
    requires AllAccounted(wk, st) && st'.ids == st.ids && st'.pendingCreate == st.pendingCreate
    requires wk'.cloud == wk.cloud && (ClosedForCreates(wk) ==> ClosedForCreates(wk'))
    ensures AllAccounted(wk', st')
  {}

  /** Only labels and the image identity in memory change; what was requested stays. */
  lemma StatusEditKeeps(wk: Worker, st: Status)
    requires LocalInv(wk) && wk.mem.Some? && StatusOK(st) && ImageIdentityKept(WithStatus(wk, st))
    requires st.ids == wk.mem.value.status.ids && st.pendingCreate == wk.mem.value.status.pendingCreate
    requires wk.mem.value.holding.Some? ==> st.cacheName.Some?
    ensures LocalInv(WithStatus(wk, st))
  {
    assert MemoryOK(wk);
    hide LocalInv, StatusOK, ImageIdentityKept;
    SameRequestsAccounted(wk, WithStatus(wk, st), wk.mem.value.status, st);
    hide AllAccounted;
    MemoryEditKeeps(wk, wk.mem.value.(status := st));
  }

  lemma EditKeepsAccounts(wk: Worker, i: nat, r: Resource, st: Status)
    requires AllAccounted(wk, st) && i < |wk.cloud| && r.kind == wk.cloud[i].kind && (wk.cloud[i].listed ==> r.listed)
    ensures AllAccounted(wk.(cloud := wk.cloud[i := r]), st)
  {}

  lemma EditKeepsMemory(wk: Worker, i: nat, r: Resource)
    requires wk.mem.Some? && MemoryOK(wk) && i < |wk.cloud| && r.kind == wk.cloud[i].kind
    requires (wk.cloud[i].listed ==> r.listed) && (wk.cloud[i].gone ==> r.gone)
    ensures MemoryOK(wk.(cloud := wk.cloud[i := r]))
  {}

  /** One resource moves forward in its life; nothing else changes. */
  lemma CloudEditKeeps(wk: Worker, i: nat, r: Resource)
    requires LocalInv(wk) && i < |wk.cloud|
    requires r.kind == wk.cloud[i].kind
    requires (wk.cloud[i].listed ==> r.listed) && (wk.cloud[i].gone ==> r.gone)
    requires DeletesJustified(wk.(cloud := wk.cloud[i := r]))
    ensures LocalInv(wk.(cloud := wk.cloud[i := r]))
  {
    hide StatusOK, AllAccounted, DeletesJustified, MemoryOK;
    EditKeepsAccounts(wk, i, r, wk.status);
    if wk.mem.Some? {
      EditKeepsMemory(wk, i, r);
    }
  }

  lemma RecordedShape(st: Status, cloud: seq<Resource>, k: Kind, i: nat)
    requires StatusOK(st) && IdsOK(st, cloud) && st.pendingCreate == Some(k) && st.phase != RefreshingDiscoveryImage
    requires i < |cloud| && cloud[i].kind == k
    ensures StatusOK(Recorded(st, k, i)) && IdsOK(Recorded(st, k, i), cloud)
  {}

  lemma RecordedAccounts(wk: Worker, wk': Worker, st: Status, k: Kind, i: nat)
    requires AllAccounted(wk, st) && OneOfEachKind(wk.cloud) && st.pendingCreate == Some(k)
    requires i < |wk.cloud| && wk.cloud[i].kind == k
    requires wk'.cloud == wk.cloud && (ClosedForCreates(wk) ==> ClosedForCreates(wk'))
    ensures AllAccounted(wk', Recorded(st, k, i))
  {}

  lemma RecordedKeepsMemory(wk: Worker, k: Kind, i: nat)
    requires wk.mem.Some? && MemoryOK(wk) && OneOfEachKind(wk.cloud) && wk.mem.value.status.pendingCreate == Some(k)
    requires i < |wk.cloud| && wk.cloud[i].kind == k && !wk.mem.value.cleanup
    requires wk.mem.value.status.phase != RefreshingDiscoveryImage && !wk.mem.value.released
    ensures MemoryOK(WithMem(wk, wk.mem.value.(armed := None, status := Recorded(wk.mem.value.status, k, i))))
  {
    hide StatusOK, AllAccounted, IdsOK;
    assert wk.mem.value.status.pendingCreate == Some(k) &&
           k !in wk.mem.value.status.ids by { PendingHasNoId(wk.mem.value.status); }
    var m := wk.mem.value.(armed := None, status := Recorded(wk.mem.value.status, k, i));
    RecordedShape(wk.mem.value.status, wk.cloud, k, i);
    RecordedAccounts(wk, WithMem(wk, m), wk.mem.value.status, k, i);
  }

  lemma PendingHasNoId(st: Status)
    requires StatusOK(st) && st.pendingCreate.Some?
    ensures st.pendingCreate.value !in st.ids
  {}

  /** The journaled resource is recorded in memory and its journal entry cleared. */
  lemma RecordingKeeps(wk: Worker, k: Kind, i: nat)
    requires LocalInv(wk) && wk.mem.Some? && wk.mem.value.status.pendingCreate == Some(k)
    requires i < |wk.cloud| && wk.cloud[i].kind == k && !wk.mem.value.cleanup
    requires wk.mem.value.status.phase != RefreshingDiscoveryImage && !wk.mem.value.released
    ensures LocalInv(WithMem(wk, wk.mem.value.(armed := None, status := Recorded(wk.mem.value.status, k, i))))
  {
    assert MemoryOK(wk) && OneOfEachKind(wk.cloud);
    hide LocalInv, MemoryOK, OneOfEachKind;
    RecordedKeepsMemory(wk, k, i);
    MemoryEditKeeps(wk, wk.mem.value.(armed := None, status := Recorded(wk.mem.value.status, k, i)));
  }

  lemma MarkDeletingKeeps(wk: Worker)
    requires LocalInv(wk) && LocalEnabled(wk, MarkDeleting)
    ensures LocalInv(LocalNext(wk, MarkDeleting))
  {}

  lemma DemandDisappearsKeeps(wk: Worker)
    requires LocalInv(wk) && LocalEnabled(wk, DemandDisappears)
    ensures LocalInv(LocalNext(wk, DemandDisappears))
  {}

  lemma BecomesListedKeeps(wk: Worker, i: nat)
    requires LocalInv(wk) && LocalEnabled(wk, BecomesListed(i))
    ensures LocalInv(LocalNext(wk, BecomesListed(i)))
  {
    CloudEditKeeps(wk, i, wk.cloud[i].(listed := true));
  }

  lemma VanishesKeeps(wk: Worker, i: nat)
    requires LocalInv(wk) && LocalEnabled(wk, Vanishes(i))
    ensures LocalInv(LocalNext(wk, Vanishes(i)))
  {
    CloudEditKeeps(wk, i, wk.cloud[i].(gone := true));
  }

  lemma AddFinalizerKeeps(wk: Worker)
    requires LocalInv(wk) && LocalEnabled(wk, AddFinalizer)
    ensures LocalInv(LocalNext(wk, AddFinalizer))
  {}

  lemma StartKeeps(wk: Worker)
    requires LocalInv(wk) && LocalEnabled(wk, Start)
    ensures LocalInv(LocalNext(wk, Start))
  {}

  lemma StopKeeps(wk: Worker)
    requires LocalInv(wk) && LocalEnabled(wk, Stop)
    ensures LocalInv(LocalNext(wk, Stop))
  {}

  lemma ObserveDemandAbsentKeeps(wk: Worker)
    requires LocalInv(wk) && LocalEnabled(wk, ObserveDemandAbsent)
    ensures LocalInv(LocalNext(wk, ObserveDemandAbsent))
  {}

  lemma SetPhaseKeeps(wk: Worker, p: Phase)
    requires LocalInv(wk) && LocalEnabled(wk, SetPhase(p))
    ensures LocalInv(LocalNext(wk, SetPhase(p)))
  {
    var st := LocalNext(wk, SetPhase(p)).mem.value.status;
    assert MemoryOK(wk) && StatusOK(st) && ImageIdentityKept(WithStatus(wk, st));
    hide LocalInv, MemoryOK, StatusOK, ImageIdentityKept;
    StatusEditKeeps(wk, st);
  }

  lemma StatusWrittenKeeps(wk: Worker)
    requires LocalInv(wk) && LocalEnabled(wk, StatusWritten)
    ensures LocalInv(LocalNext(wk, StatusWritten))
  {}

  lemma JournaledKeepsMemory(wk: Worker, k: Kind)
    requires wk.mem.Some? && MemoryOK(wk) && CanSetPending(wk, k) && wk.mem.value.armed == None
    ensures MemoryOK(WithStatus(wk, wk.mem.value.status.(pendingCreate := Some(k))))
  {}

  lemma SetPendingKeeps(wk: Worker, k: Kind)
    requires LocalInv(wk) && LocalEnabled(wk, SetPending(k))
    ensures LocalInv(LocalNext(wk, SetPending(k)))
  {
    assert MemoryOK(wk) && wk.mem.value.armed == None;
    hide LocalInv, MemoryOK;
    JournaledKeepsMemory(wk, k);
    MemoryEditKeeps(wk, wk.mem.value.(status := wk.mem.value.status.(pendingCreate := Some(k))));
  }

  lemma AppendKeepsIds(st: Status, cloud: seq<Resource>, r: Resource)
    requires IdsOK(st, cloud)
    ensures IdsOK(st, cloud + [r])
  {}

  lemma AppendKeepsAccounts(wk: Worker, wk': Worker, st: Status, k: Kind)
    requires AllAccounted(wk, st) && st.pendingCreate == Some(k) && !ClosedForCreates(wk)
    requires wk'.cloud == wk.cloud + [Resource(k, false, false, false)]
    ensures AllAccounted(wk', st)
  {}

  lemma AppendKeepsDeletes(wk: Worker, wk': Worker, r: Resource)
    requires DeletesJustified(wk) && !ClosedForCreates(wk) && !r.deleteRequested && wk'.cloud == wk.cloud + [r]
    ensures DeletesJustified(wk')
  {}

  lemma AppendKeepsOne(cloud: seq<Resource>, r: Resource)
    requires OneOfEachKind(cloud) && NoneOfKind(cloud, r.kind)
    ensures OneOfEachKind(cloud + [r])
  {}

  lemma AppendKeepsMemory(wk: Worker, wk': Worker, k: Kind)
    requires wk.mem.Some? && MemoryOK(wk) && !wk.mem.value.cleanup && wk.mem.value.armed == Some(k)
    requires wk' == wk.(cloud := wk.cloud + [Resource(k, false, false, false)],
             mem := Some(wk.mem.value.(armed := None)))
    ensures MemoryOK(wk')
  {}

  /** A POST that lands without a reply leaves exactly one journaled resource. */
  lemma LostReplyKeeps(wk: Worker, k: Kind)
    requires LocalInv(wk) && LocalEnabled(wk, Post(k, false))
    ensures LocalInv(LocalNext(wk, Post(k, false)))
  {
    LandedPostKeeps(wk, LocalNext(wk, Post(k, false)), k);
  }

  lemma LandedPostKeeps(wk: Worker, wk': Worker, k: Kind)
    requires LocalInv(wk) && Provisioning(wk) && wk.mem.value.armed == Some(k)
    requires wk' == wk.(cloud := wk.cloud + [Resource(k, false, false, false)],
             mem := Some(wk.mem.value.(armed := None)))
    ensures LocalInv(wk')
  {
    var r := Resource(k, false, false, false);
    assert wk.status.pendingCreate == Some(k) && NoneOfKind(wk.cloud, k) && MemoryOK(wk);
    hide StatusOK, IdsOK, AllAccounted, DeletesJustified, OneOfEachKind, MemoryOK;
    AppendKeepsIds(wk.status, wk.cloud, r);
    AppendKeepsOne(wk.cloud, r);
    AppendKeepsAccounts(wk, wk', wk.status, k);
    AppendKeepsDeletes(wk, wk', r);
    AppendKeepsMemory(wk, wk', k);
  }

  lemma PostKeeps(wk: Worker, k: Kind, replied: bool)
    requires LocalInv(wk) && LocalEnabled(wk, Post(k, replied))
    ensures LocalInv(LocalNext(wk, Post(k, replied)))
  {
    LostReplyKeeps(wk, k);
    if replied {
      RecordingKeeps(LocalNext(wk, Post(k, false)), k, |wk.cloud|);
    }
  }

  lemma RejectedKeepsMemory(wk: Worker, k: Kind)
    requires wk.mem.Some? && MemoryOK(wk) && Provisioning(wk) && wk.mem.value.armed == Some(k)
    ensures MemoryOK(AfterRejection(wk))
  {}

  lemma PostRejectedKeeps(wk: Worker, k: Kind)
    requires LocalInv(wk) && LocalEnabled(wk, PostRejected(k))
    ensures LocalInv(LocalNext(wk, PostRejected(k)))
  {
    assert MemoryOK(wk);
    hide LocalInv, MemoryOK;
    RejectedKeepsMemory(wk, k);
    MemoryEditKeeps(wk, AfterRejection(wk).mem.value);
  }

  lemma RecordFoundKeeps(wk: Worker, k: Kind, i: nat)
    requires LocalInv(wk) && LocalEnabled(wk, RecordFound(k, i))
    ensures LocalInv(LocalNext(wk, RecordFound(k, i)))
  {
    assert Accounted(wk.cloud[i], i, false, wk.mem.value.status);
    RecordingKeeps(wk, k, i);
  }

  lemma RecordMACKeeps(wk: Worker)
    requires LocalInv(wk) && LocalEnabled(wk, RecordMAC)
    ensures LocalInv(LocalNext(wk, RecordMAC))
  {
    var st := LocalNext(wk, RecordMAC).mem.value.status;
    assert MemoryOK(wk) && StatusOK(st) && ImageIdentityKept(WithStatus(wk, st));
    hide LocalInv, MemoryOK, StatusOK, ImageIdentityKept;
    StatusEditKeeps(wk, st);
  }

  lemma RecordAgentKeeps(wk: Worker)
    requires LocalInv(wk) && LocalEnabled(wk, RecordAgent)
    ensures LocalInv(LocalNext(wk, RecordAgent))
  {
    var st := LocalNext(wk, RecordAgent).mem.value.status;
    assert MemoryOK(wk) && StatusOK(st) && ImageIdentityKept(WithStatus(wk, st));
    hide LocalInv, MemoryOK, StatusOK, ImageIdentityKept;
    StatusEditKeeps(wk, st);
  }

  lemma DownloadKeeps(wk: Worker, d: Digest)
    requires LocalInv(wk) && LocalEnabled(wk, Download(d))
    ensures LocalInv(LocalNext(wk, Download(d)))
  {}

  lemma PinCacheNameKeeps(wk: Worker, key: CacheKey)
    requires LocalInv(wk) && LocalEnabled(wk, PinCacheName(key))
    ensures LocalInv(LocalNext(wk, PinCacheName(key)))
  {
    var st := LocalNext(wk, PinCacheName(key)).mem.value.status;
    assert MemoryOK(wk) && StatusOK(st) && ImageIdentityKept(WithStatus(wk, st));
    hide LocalInv, MemoryOK, StatusOK, ImageIdentityKept;
    StatusEditKeeps(wk, st);
  }

  lemma PinImageIDKeeps(wk: Worker)
    requires LocalInv(wk) && LocalEnabled(wk, PinImageID)
    ensures LocalInv(LocalNext(wk, PinImageID))
  {
    var st := LocalNext(wk, PinImageID).mem.value.status;
    assert MemoryOK(wk) && StatusOK(st) && ImageIdentityKept(WithStatus(wk, st));
    hide LocalInv, MemoryOK, StatusOK, ImageIdentityKept;
    StatusEditKeeps(wk, st);
  }

  lemma EnterRefreshKeeps(wk: Worker)
    requires LocalInv(wk) && LocalEnabled(wk, EnterRefresh)
    ensures LocalInv(LocalNext(wk, EnterRefresh))
  {
    var st := LocalNext(wk, EnterRefresh).mem.value.status;
    assert MemoryOK(wk) && StatusOK(st) && ImageIdentityKept(WithStatus(wk, st));
    hide LocalInv, MemoryOK, StatusOK, ImageIdentityKept;
    StatusEditKeeps(wk, st);
  }

  lemma ClearImageIdentityKeeps(wk: Worker)
    requires LocalInv(wk) && LocalEnabled(wk, ClearImageIdentity)
    ensures LocalInv(LocalNext(wk, ClearImageIdentity))
  {
    var st := LocalNext(wk, ClearImageIdentity).mem.value.status;
    assert MemoryOK(wk) && StatusOK(st) && ImageIdentityKept(WithStatus(wk, st));
    hide LocalInv, MemoryOK, StatusOK, ImageIdentityKept;
    StatusEditKeeps(wk, st);
  }

  lemma BeginCleanupKeeps(wk: Worker)
    requires LocalInv(wk) && LocalEnabled(wk, BeginCleanup)
    ensures LocalInv(LocalNext(wk, BeginCleanup))
  {
    var st := LocalNext(wk, BeginCleanup).mem.value.status;
    assert MemoryOK(wk) && StatusOK(st) && ImageIdentityKept(WithStatus(wk, st));
    hide LocalInv, MemoryOK, StatusOK, ImageIdentityKept;
    StatusEditKeeps(wk, st);
  }

  lemma FoundNoResourceKeeps(wk: Worker, k: Kind)
    requires LocalInv(wk) && LocalEnabled(wk, FoundNoResource(k))
    ensures LocalInv(LocalNext(wk, FoundNoResource(k)))
  {
    MemoryEditKeeps(wk, LocalNext(wk, FoundNoResource(k)).mem.value);
  }

  lemma GotNoResourceKeeps(wk: Worker, k: Kind)
    requires LocalInv(wk) && LocalEnabled(wk, GotNoResource(k))
    ensures LocalInv(LocalNext(wk, GotNoResource(k)))
  {
    MemoryEditKeeps(wk, LocalNext(wk, GotNoResource(k)).mem.value);
  }

  lemma ForgottenKeepsMemory(wk: Worker, k: Kind, i: nat)
    requires wk.mem.Some? && MemoryOK(wk) && OneOfEachKind(wk.cloud) && CleaningUp(wk)
    requires wk.mem.value.status.pendingCreate == Some(k)
    requires i < |wk.cloud| && wk.cloud[i].kind == k && wk.cloud[i].listed
    ensures MemoryOK(WithStatus(wk, wk.mem.value.status.(pendingCreate := None)))
  {}

  lemma ForgetPendingKeeps(wk: Worker, k: Kind, i: nat)
    requires LocalInv(wk) && LocalEnabled(wk, ForgetPending(k, i))
    ensures LocalInv(LocalNext(wk, ForgetPending(k, i)))
  {
    assert MemoryOK(wk) && OneOfEachKind(wk.cloud);
    hide LocalInv, MemoryOK, OneOfEachKind;
    ForgottenKeepsMemory(wk, k, i);
    MemoryEditKeeps(wk, wk.mem.value.(status := wk.mem.value.status.(pendingCreate := None)));
  }

  lemma RequestIsJustified(wk: Worker, k: Kind, i: nat)
    requires DeletesJustified(wk) && wk.mem.Some? && AllGone(wk.cloud, wk.mem.value.absent)
    requires LocalEnabled(wk, RequestDelete(k, i)) && !wk.demand && wk.deleting && wk.finalizer != Never
    ensures DeletesJustified(wk.(cloud := wk.cloud[i := wk.cloud[i].(deleteRequested := true)]))
  {}

  lemma RequestDeleteKeeps(wk: Worker, k: Kind, i: nat)
    requires LocalInv(wk) && LocalEnabled(wk, RequestDelete(k, i))
    ensures LocalInv(LocalNext(wk, RequestDelete(k, i)))
  {
    assert MemoryOK(wk) && DeletesJustified(wk) && wk.finalizer != Never;
    hide LocalInv, DeletesJustified;
    RequestIsJustified(wk, k, i);
    CloudEditKeeps(wk, i, wk.cloud[i].(deleteRequested := true));
  }

  lemma RemoveFinalizerKeeps(wk: Worker)
    requires LocalInv(wk) && LocalEnabled(wk, RemoveFinalizer)
    ensures LocalInv(LocalNext(wk, RemoveFinalizer))
  {}

  lemma RetainAndReleaseKeeps(wk: Worker)
    requires LocalInv(wk) && LocalEnabled(wk, RetainAndRelease)
    ensures LocalInv(LocalNext(wk, RetainAndRelease))
  {}

  lemma EnvironmentStepKeeps(wk: Worker, a: LocalAction)
    requires LocalInv(wk) && LocalEnabled(wk, a)
    requires a.MarkDeleting? || a.DemandDisappears? || a.BecomesListed? || a.Vanishes?
    ensures LocalInv(LocalNext(wk, a))
  {
    match a
    case MarkDeleting => MarkDeletingKeeps(wk);
    case DemandDisappears => DemandDisappearsKeeps(wk);
    case BecomesListed(i) => BecomesListedKeeps(wk, i);
    case Vanishes(i) => VanishesKeeps(wk, i);
  }

  lemma LifecycleStepKeeps(wk: Worker, a: LocalAction)
    requires LocalInv(wk) && LocalEnabled(wk, a)
    requires a.AddFinalizer? || a.Start? || a.Stop? || a.ObserveDemandAbsent? || a.StatusWritten? || a.SetPhase?
    ensures LocalInv(LocalNext(wk, a))
  {
    match a
    case AddFinalizer => AddFinalizerKeeps(wk);
    case Start => StartKeeps(wk);
    case Stop => StopKeeps(wk);
    case ObserveDemandAbsent => ObserveDemandAbsentKeeps(wk);
    case SetPhase(p) => SetPhaseKeeps(wk, p);
    case StatusWritten => StatusWrittenKeeps(wk);
  }

  lemma JournalStepKeeps(wk: Worker, a: LocalAction)
    requires LocalInv(wk) && LocalEnabled(wk, a)
    requires a.SetPending? || a.Post? || a.PostRejected? || a.RecordFound? || a.RecordMAC? || a.RecordAgent?
    ensures LocalInv(LocalNext(wk, a))
  {
    match a
    case SetPending(k) => SetPendingKeeps(wk, k);
    case Post(k, replied) => PostKeeps(wk, k, replied);
    case PostRejected(k) => PostRejectedKeeps(wk, k);
    case RecordFound(k, i) => RecordFoundKeeps(wk, k, i);
    case RecordMAC => RecordMACKeeps(wk);
    case RecordAgent => RecordAgentKeeps(wk);
  }

  lemma ImageIdentityStepKeeps(wk: Worker, a: LocalAction)
    requires LocalInv(wk) && LocalEnabled(wk, a)
    requires a.Download? || a.PinCacheName? || a.PinImageID? || a.EnterRefresh? || a.ClearImageIdentity?
    ensures LocalInv(LocalNext(wk, a))
  {
    match a
    case Download(d) => DownloadKeeps(wk, d);
    case PinCacheName(key) => PinCacheNameKeeps(wk, key);
    case PinImageID => PinImageIDKeeps(wk);
    case EnterRefresh => EnterRefreshKeeps(wk);
    case ClearImageIdentity => ClearImageIdentityKeeps(wk);
  }

  lemma CleanupStepKeeps(wk: Worker, a: LocalAction)
    requires LocalInv(wk) && LocalEnabled(wk, a)
    requires a.BeginCleanup? || a.FoundNoResource? || a.GotNoResource? || a.ForgetPending? || a.RequestDelete? ||
             a.RemoveFinalizer? || a.RetainAndRelease?
    ensures LocalInv(LocalNext(wk, a))
  {
    match a
    case BeginCleanup => BeginCleanupKeeps(wk);
    case FoundNoResource(k) => FoundNoResourceKeeps(wk, k);
    case GotNoResource(k) => GotNoResourceKeeps(wk, k);
    case ForgetPending(k, i) => ForgetPendingKeeps(wk, k, i);
    case RequestDelete(k, i) => RequestDeleteKeeps(wk, k, i);
    case RemoveFinalizer => RemoveFinalizerKeeps(wk);
    case RetainAndRelease => RetainAndReleaseKeeps(wk);
  }

  /** Every action of one worker and its environment keeps the local invariant. */
  lemma LocalStepKeeps(wk: Worker, a: LocalAction)
    requires LocalInv(wk) && LocalEnabled(wk, a)
    ensures LocalInv(LocalNext(wk, a))
  {
    if a.MarkDeleting? || a.DemandDisappears? || a.BecomesListed? || a.Vanishes? {
      EnvironmentStepKeeps(wk, a);
    } else if a.AddFinalizer? || a.Start? || a.Stop? || a.ObserveDemandAbsent? || a.StatusWritten? || a.SetPhase? {
      LifecycleStepKeeps(wk, a);
    } else if a.SetPending? || a.Post? || a.PostRejected? || a.RecordFound? || a.RecordMAC? || a.RecordAgent? {
      JournalStepKeeps(wk, a);
    } else if a.Download? || a.PinCacheName? || a.PinImageID? || a.EnterRefresh? || a.ClearImageIdentity? {
      ImageIdentityStepKeeps(wk, a);
    } else {
      CleanupStepKeeps(wk, a);
    }
  }
}
