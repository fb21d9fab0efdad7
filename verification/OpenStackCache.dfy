/**
 * Any number of workers sharing Glance images through reference-counting ConfigMaps.
 *
 * A ConfigMap is read together with its resourceVersion and written under it. The last
 * releaser leaves a tombstone, then deletes the image, then the ConfigMap. Workers are
 * interleaved action by action and any of them may crash between two actions.
 */
module OpenStackCache {
  import opened Common
  import opened OpenStackTypes
  import opened OpenStackWorker

  datatype CachePhase = Active | Tombstoned | Collected

  /** A ConfigMap, past or present. Its UID also determines the Glance image ID. */
  datatype Cache = Cache(key: CacheKey, version: nat, phase: CachePhase, refs: set<WorkerUid>)

  type Caches = map<CacheUid, Cache>
  type Images = map<CacheUid, Image>

  datatype Image = Image(active: bool, content: Option<Digest>, deleteRequested: bool, gone: bool)

  /**
   * - caches: every ConfigMap ever created, by UID
   * - present: the UID of the ConfigMap that currently carries a name
   * - images: every image ever created, by the UID of its owning cache (imageIDForCache
   *   is a name-based UUID, section 5.5 of RFC 9562, taken as injective)
   */
  datatype State = State(
    workers: map<WorkerUid, Worker>,
    caches: Caches,
    present: map<CacheKey, CacheUid>,
    images: Images)

  const EMPTY := State(map[], map[], map[], map[])

  datatype Action =
    | AddWorker(w: WorkerUid, policy: Policy)
    | Local(w: WorkerUid, step: LocalAction)
    | ReadCache(w: WorkerUid)
    // acquireCache
    | CreateCache(w: WorkerUid, uid: CacheUid)
    | AddReference(w: WorkerUid)
    | KeepReference(w: WorkerUid)
    // ensureDiscoveryImage and uploadDiscoverySnapshot
    | CreateImage(w: WorkerUid)
    | UploadImage(w: WorkerUid)
    | ObserveActive(w: WorkerUid)
    // releaseDiscoveryImage
    | DropReference(w: WorkerUid)
    | ObserveImageAbsent(w: WorkerUid)
    | DeleteImage(w: WorkerUid)
    | DeleteCache(w: WorkerUid)
    | FinishRelease(w: WorkerUid)
    // Glance
    | ImageBecomesActive(uid: CacheUid)
    | ImageVanishes(uid: CacheUid)

  predicate ImageExists(images: Images, u: CacheUid) {
    u in images && !images[u].gone
  }

  /** releaseDiscoveryImage runs: at the end of cleanup, or under a durable refresh journal. */
  predicate Releasing(wk: Worker) {
    && wk.mem.Some?
    && !wk.mem.value.released
    && (|| (CleaningUp(wk) && DeletedKinds(wk.policy) <= wk.mem.value.absent)
        || (&& !wk.mem.value.cleanup
            && wk.mem.value.holding == None
            && wk.status.phase == RefreshingDiscoveryImage
            && wk.mem.value.status.phase == RefreshingDiscoveryImage))
  }

  /** The cache name is in memory and was checkpointed before it is used. */
  predicate NameCheckpointed(wk: Worker) {
    wk.mem.Some? && wk.mem.value.status.cacheName.Some? && wk.status.cacheName == wk.mem.value.status.cacheName
  }

  /** The held copy is the stored ConfigMap at the same resourceVersion. */
  predicate ViewCurrent(s: State, m: Memory) {
    && m.view.Seen?
    && m.status.cacheName.Some?
    && m.status.cacheName.value in s.present
    && s.present[m.status.cacheName.value] == m.view.uid
    && m.view.uid in s.caches
    && s.caches[m.view.uid].version == m.view.version
  }

  /** The pinned image, if any, is the one owned by the cache just read. */
  predicate OwnCache(m: Memory) {
    m.view.Seen? && (m.status.imageID == None || m.status.imageID == Some(m.view.uid))
  }

  function WithWorker(s: State, w: WorkerUid, wk: Worker): State {
    s.(workers := s.workers[w := wk])
  }

  // ---------- One predicate and one function per API call ----------

  predicate CanReadCache(wk: Worker) {
    (Provisioning(wk) || Releasing(wk)) && wk.mem.value.status.cacheName.Some?
  }

  function ReadName(s: State, key: CacheKey): CacheView {
    if key in s.present && s.present[key] in s.caches then
      var u := s.present[key];
      Seen(u, s.caches[u].version, s.caches[u].phase == Active, s.caches[u].refs)
    else
      Missing
  }

  function DoReadCache(s: State, w: WorkerUid, wk: Worker): State
    requires CanReadCache(wk)
  {
    var m := wk.mem.value;
    WithWorker(s, w, WithMem(wk, m.(view := ReadName(s, m.status.cacheName.value))))
  }

  predicate CanCreateCache(s: State, wk: Worker, u: CacheUid) {
    && Provisioning(wk) && NameCheckpointed(wk)
    && wk.mem.value.view == Missing
    && wk.mem.value.status.cacheName.value !in s.present
    && u !in s.caches
  }

  function DoCreateCache(s: State, w: WorkerUid, wk: Worker, u: CacheUid): State
    requires CanCreateCache(s, wk, u)
  {
    var m := wk.mem.value;
    var key := m.status.cacheName.value;
    State(
      s.workers[w := WithMem(wk, m.(view := Unread, holding := Some(u)))],
      s.caches[u := Cache(key, 0, Active, {w})],
      s.present[key := u],
      s.images)
  }

  predicate CanAddReference(s: State, w: WorkerUid, wk: Worker) {
    && Provisioning(wk) && NameCheckpointed(wk)
    && ViewCurrent(s, wk.mem.value) && wk.mem.value.view.active && w !in wk.mem.value.view.refs
  }

  function DoAddReference(s: State, w: WorkerUid, wk: Worker): State
    requires CanAddReference(s, w, wk)
  {
    var m := wk.mem.value;
    var u := m.view.uid;
    var c := s.caches[u];
    s.(workers := s.workers[w := WithMem(wk, m.(view := Unread, holding := Some(u)))],
       caches := s.caches[u := c.(version := c.version + 1, refs := c.refs + {w})])
  }

  predicate CanKeepReference(w: WorkerUid, wk: Worker) {
    Provisioning(wk) && wk.mem.value.view.Seen? && wk.mem.value.view.active && w in wk.mem.value.view.refs
  }

  function DoKeepReference(s: State, w: WorkerUid, wk: Worker): State
    requires CanKeepReference(w, wk)
  {
    var m := wk.mem.value;
    WithWorker(s, w, WithMem(wk, m.(view := Unread, holding := Some(m.view.uid))))
  }

  /** The reconcile holds the cache whose image it has pinned in memory. */
  predicate HoldsPinned(wk: Worker) {
    Provisioning(wk) && wk.mem.value.holding.Some? && wk.mem.value.status.imageID == wk.mem.value.holding
  }

  predicate CanCreateImage(s: State, wk: Worker) {
    && HoldsPinned(wk)
    && wk.status.imageID == wk.mem.value.holding
    && !ImageExists(s.images, wk.mem.value.holding.value)
  }

  function DoCreateImage(s: State, wk: Worker): State
    requires CanCreateImage(s, wk)
  {
    s.(images := s.images[wk.mem.value.holding.value := Image(false, None, false, false)])
  }

  predicate CanUploadImage(s: State, wk: Worker) {
    && HoldsPinned(wk)
    && wk.mem.value.snapshot.Some? && wk.mem.value.snapshot == wk.mem.value.status.isoDigest
    && ImageExists(s.images, wk.mem.value.holding.value)
  }

  function DoUploadImage(s: State, wk: Worker): State
    requires CanUploadImage(s, wk)
  {
    var u := wk.mem.value.holding.value;
    s.(images := s.images[u := s.images[u].(content := wk.mem.value.snapshot)])
  }

  predicate CanObserveActive(s: State, wk: Worker) {
    && HoldsPinned(wk)
    && ImageExists(s.images, wk.mem.value.holding.value) && s.images[wk.mem.value.holding.value].active
  }

  function DoObserveActive(s: State, w: WorkerUid, wk: Worker): State
    requires CanObserveActive(s, wk)
  {
    WithWorker(s, w, WithMem(wk, wk.mem.value.(ready := wk.mem.value.holding)))
  }

  predicate CanDropReference(s: State, wk: Worker) {
    && Releasing(wk)
    && OwnCache(wk.mem.value) && wk.mem.value.view.active && ViewCurrent(s, wk.mem.value)
  }

  function DoDropReference(s: State, w: WorkerUid, wk: Worker): State
    requires CanDropReference(s, wk)
  {
    var m := wk.mem.value;
    var u := m.view.uid;
    var c := s.caches[u];
    var rest := c.refs - {w};
    s.(workers := s.workers[w := WithMem(wk, m.(view := Unread, released := rest != {}))],
       caches := s.caches[u := c.(version := if w in c.refs then c.version + 1 else c.version, refs := rest,
                                  phase := if rest == {} then Tombstoned else Active)])
  }

  /** The tombstone of the own cache was read. */
  predicate HoldsTombstone(wk: Worker) {
    && Releasing(wk)
    && wk.mem.value.status.cacheName.Some?
    && OwnCache(wk.mem.value) && !wk.mem.value.view.active
  }

  predicate CanObserveImageAbsent(s: State, wk: Worker) {
    HoldsTombstone(wk) && !ImageExists(s.images, wk.mem.value.view.uid)
  }

  function DoObserveImageAbsent(s: State, w: WorkerUid, wk: Worker): State
    requires CanObserveImageAbsent(s, wk)
  {
    WithWorker(s, w, WithMem(wk, wk.mem.value.(imageAbsent := Some(wk.mem.value.view.uid))))
  }

  predicate CanDeleteImage(s: State, wk: Worker) {
    HoldsTombstone(wk) && ImageExists(s.images, wk.mem.value.view.uid)
  }

  function DoDeleteImage(s: State, wk: Worker): State
    requires CanDeleteImage(s, wk)
  {
    var u := wk.mem.value.view.uid;
    s.(images := s.images[u := s.images[u].(deleteRequested := true)])
  }

  /** Deletion is conditional on UID and resourceVersion; an absent ConfigMap also counts as done. */
  predicate CanDeleteCache(s: State, wk: Worker) {
    && HoldsTombstone(wk)
    && wk.mem.value.imageAbsent == Some(wk.mem.value.view.uid)
    && (wk.mem.value.status.cacheName.value in s.present ==> ViewCurrent(s, wk.mem.value))
  }

  function DoDeleteCache(s: State, w: WorkerUid, wk: Worker): State
    requires CanDeleteCache(s, wk)
  {
    var m := wk.mem.value;
    var key := m.status.cacheName.value;
    var done := WithWorker(s, w, WithMem(wk, m.(released := true)));
    if key in s.present then
      done.(present := s.present - {key},
            caches := s.caches[m.view.uid := s.caches[m.view.uid].(phase := Collected)])
    else
      done
  }

  /** The exits of releaseDiscoveryImage that report done without another write. */
  predicate CanFinishRelease(s: State, wk: Worker) {
    && Releasing(wk)
    && var m := wk.mem.value;
    || m.status.cacheName == None
    || (m.view == Missing && m.status.imageID == None)
    || (&& (m.view == Missing || m.view.Seen?)
        && m.status.imageID.Some?
        && (m.view.Seen? ==> m.view.uid != m.status.imageID.value)
        && !ImageExists(s.images, m.status.imageID.value))
  }

  function DoFinishRelease(s: State, w: WorkerUid, wk: Worker): State
    requires CanFinishRelease(s, wk)
  {
    WithWorker(s, w, WithMem(wk, wk.mem.value.(released := true)))
  }

  predicate Enabled(s: State, a: Action) {
    match a
    case AddWorker(w, _) => w !in s.workers
    case Local(w, step) => w in s.workers && LocalEnabled(s.workers[w], step)
    case ReadCache(w) => w in s.workers && CanReadCache(s.workers[w])
    case CreateCache(w, u) => w in s.workers && CanCreateCache(s, s.workers[w], u)
    case AddReference(w) => w in s.workers && CanAddReference(s, w, s.workers[w])
    case KeepReference(w) => w in s.workers && CanKeepReference(w, s.workers[w])
    case CreateImage(w) => w in s.workers && CanCreateImage(s, s.workers[w])
    case UploadImage(w) => w in s.workers && CanUploadImage(s, s.workers[w])
    case ObserveActive(w) => w in s.workers && CanObserveActive(s, s.workers[w])
    case DropReference(w) => w in s.workers && CanDropReference(s, s.workers[w])
    case ObserveImageAbsent(w) => w in s.workers && CanObserveImageAbsent(s, s.workers[w])
    case DeleteImage(w) => w in s.workers && CanDeleteImage(s, s.workers[w])
    case DeleteCache(w) => w in s.workers && CanDeleteCache(s, s.workers[w])
    case FinishRelease(w) => w in s.workers && CanFinishRelease(s, s.workers[w])
    case ImageBecomesActive(u) => ImageExists(s.images, u) && s.images[u].content.Some?
    case ImageVanishes(u) => u in s.images && s.images[u].deleteRequested
  }

  function Next(s: State, a: Action): State
    requires Enabled(s, a)
  {
    match a
    case AddWorker(w, policy) => WithWorker(s, w, NewWorker(policy))
    case Local(w, step) => WithWorker(s, w, LocalNext(s.workers[w], step))
    case ReadCache(w) => DoReadCache(s, w, s.workers[w])
    case CreateCache(w, u) => DoCreateCache(s, w, s.workers[w], u)
    case AddReference(w) => DoAddReference(s, w, s.workers[w])
    case KeepReference(w) => DoKeepReference(s, w, s.workers[w])
    case CreateImage(w) => DoCreateImage(s, s.workers[w])
    case UploadImage(w) => DoUploadImage(s, s.workers[w])
    case ObserveActive(w) => DoObserveActive(s, w, s.workers[w])
    case DropReference(w) => DoDropReference(s, w, s.workers[w])
    case ObserveImageAbsent(w) => DoObserveImageAbsent(s, w, s.workers[w])
    case DeleteImage(w) => DoDeleteImage(s, s.workers[w])
    case DeleteCache(w) => DoDeleteCache(s, w, s.workers[w])
    case FinishRelease(w) => DoFinishRelease(s, w, s.workers[w])
    case ImageBecomesActive(u) => s.(images := s.images[u := s.images[u].(active := true)])
    case ImageVanishes(u) => s.(images := s.images[u := s.images[u].(gone := true)])
  }

  // ---------- Invariant of the shared part ----------

  ghost predicate CacheOK(s: State, u: CacheUid)
    requires u in s.caches
  {
    var c := s.caches[u];
    && (c.phase == Active <==> c.refs != {})
    && (c.phase != Collected ==> c.key in s.present && s.present[c.key] == u)
    && c.refs <= s.workers.Keys
  }

  ghost predicate PresentOK(s: State, key: CacheKey)
    requires key in s.present
  {
    var u := s.present[key];
    u in s.caches && s.caches[u].key == key && s.caches[u].phase != Collected
  }

  ghost predicate ImageOK(s: State, u: CacheUid)
    requires u in s.images
  {
    var i := s.images[u];
    && u in s.caches
    && (i.deleteRequested ==> s.caches[u].phase != Active)
    && (i.gone ==> i.deleteRequested)
    && (i.content.Some? ==> i.content.value == s.caches[u].key.digest)
    && (i.active ==> i.content.Some?)
    && (s.caches[u].phase == Collected ==> i.gone)
  }

  ghost predicate Refers(caches: Caches, u: CacheUid, w: WorkerUid) {
    u in caches && w in caches[u].refs
  }

  /** A provisioning status that pins an image holds a reference on its cache. */
  ghost predicate Pinned(caches: Caches, w: WorkerUid, st: Status) {
    st.imageID.Some? && st.phase != RefreshingDiscoveryImage ==> Refers(caches, st.imageID.value, w)
  }

  /** A worker that pins one image refers to no other cache. */
  ghost predicate Exclusive(caches: Caches, w: WorkerUid, st: Status) {
    st.imageID.Some? ==> forall u :: Refers(caches, u, w) ==> u == st.imageID.value
  }

  /** Whatever is built from an image keeps that image. */
  ghost predicate Backed(images: Images, st: Status) {
    Requested(st, DiscoveryVolume) && st.imageID.Some? ==> ImageExists(images, st.imageID.value)
  }

  ghost predicate LiveBacked(caches: Caches, images: Images, w: WorkerUid, wk: Worker) {
    forall i :: 0 <= i < |wk.cloud| && !wk.cloud[i].gone && wk.cloud[i].kind in {DiscoveryVolume, Server} ==>
      && wk.status.imageID.Some?
      && Refers(caches, wk.status.imageID.value, w)
      && ImageExists(images, wk.status.imageID.value)
  }

  ghost predicate ViewOK(caches: Caches, w: WorkerUid, m: Memory) {
    match m.view
    case Unread => true
    case Missing => forall u :: !Refers(caches, u, w)
    case Seen(u, version, active, refs) =>
      && u in caches
      && (m.status.cacheName == Some(caches[u].key) || m.released)
      && version <= caches[u].version
      && (version == caches[u].version ==> refs == caches[u].refs && (active <==> caches[u].phase == Active))
      && (!active ==> caches[u].phase != Active)
      && (active && w in refs ==> Refers(caches, u, w))
      && (forall v :: Refers(caches, v, w) ==> v == u)
  }

  ghost predicate MemoryLinked(caches: Caches, images: Images, w: WorkerUid, wk: Worker)
    requires wk.mem.Some?
  {
    var m := wk.mem.value;
    && (forall u :: Refers(caches, u, w) ==> m.status.cacheName == Some(caches[u].key) && !m.released)
    && (!m.cleanup ==> Pinned(caches, w, m.status) && Backed(images, m.status))
    && Exclusive(caches, w, m.status)
    && ViewOK(caches, w, m)
    && (m.holding.Some? ==> !m.cleanup && Refers(caches, m.holding.value, w))
    && (m.ready.Some? ==> m.ready == m.holding && ImageExists(images, m.ready.value))
    && (m.imageAbsent.Some? ==>
          && m.imageAbsent.value in caches
          && caches[m.imageAbsent.value].phase != Active
          && !ImageExists(images, m.imageAbsent.value))
  }

  ghost predicate Linked(caches: Caches, images: Images, w: WorkerUid, wk: Worker) {
    && (forall u :: Refers(caches, u, w) ==> wk.status.cacheName == Some(caches[u].key))
    && (!ClosedForCreates(wk) ==> Pinned(caches, w, wk.status) && Backed(images, wk.status))
    && Exclusive(caches, w, wk.status)
    && LiveBacked(caches, images, w, wk)
    && (wk.finalizer == Removed ==> forall u :: !Refers(caches, u, w))
    && (wk.mem.Some? ==> MemoryLinked(caches, images, w, wk))
  }

  ghost predicate SharedOK(s: State) {
    && (forall u :: u in s.caches ==> CacheOK(s, u))
    && (forall key :: key in s.present ==> PresentOK(s, key))
    && (forall u :: u in s.images ==> ImageOK(s, u))
  }

  ghost predicate Inv(s: State) {
    && SharedOK(s)
    && (forall w :: w in s.workers ==> LocalInv(s.workers[w]))
    && (forall w :: w in s.workers ==> Linked(s.caches, s.images, w, s.workers[w]))
  }
}
