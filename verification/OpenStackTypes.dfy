/**
 * Values shared by the OpenStack modules: what an OpenStackAgent records, what the
 * cloud holds for it, and what one running reconcile keeps in process memory.
 */
module OpenStackTypes {
  import opened Common

  /** UID of an OpenStackAgent, and UID of an image-cache ConfigMap. UIDs are never reused. */
  type WorkerUid = nat
  type CacheUid = nat

  /** The four kinds created by a non-idempotent POST. Glance images are keyed by cache UID. */
  datatype Kind = Port | OSVolume | DiscoveryVolume | Server

  /**
   * The name computed by imageCacheKey. SHA-256 over scope, InfraEnv UID and ISO digest
   * is taken as injective, so the key is the triple itself.
   */
  datatype CacheKey = CacheKey(scope: nat, infraEnvUID: nat, digest: Digest)

  /** Progress stands for every label that only reports progress. */
  datatype Phase = Progress | Failed | Deleting | RefreshingDiscoveryImage

  /** OpenStackAgentStatus: the part that provisioning, refresh and cleanup decide on. */
  datatype Status = Status(
    pendingCreate: Option<Kind>,
    ids: map<Kind, nat>,
    macKnown: bool,
    cacheName: Option<CacheKey>,
    isoDigest: Option<Digest>,
    imageID: Option<CacheUid>,
    phase: Phase,
    agentKnown: bool,
    instanceCreated: bool)

  const EMPTY_STATUS := Status(None, map[], false, None, None, None, Progress, false, false)

  /**
   * One resource ever created in the cloud for a worker. Its ID is its index in
   * Worker.cloud, so a new resource never reuses an ID.
   * - listed: a name lookup has started to return it (and keeps returning it)
   * - deleteRequested: the operator issued a delete for it
   * - gone: it no longer exists
   */
  datatype Resource = Resource(kind: Kind, listed: bool, deleteRequested: bool, gone: bool)

  /** The copy of the cache ConfigMap held by a reconcile, with its resourceVersion. */
  datatype CacheView =
    | Unread
    | Missing
    | Seen(uid: CacheUid, version: nat, active: bool, refs: set<WorkerUid>)

  /**
   * Process memory of one reconcile; lost on a crash.
   * - status: the in-memory a.Status
   * - cleanup: a.DeletionTimestamp was set when the object was read
   * - demandAbsent: the AgentMachine was observed absent through the uncached reader
   * - armed: the kind whose journal entry this reconcile has just made durable
   * - absent: kinds that cleanup observed to be absent
   * - snapshot: digest of the ISO file downloaded by this reconcile
   * - holding: the cache returned by acquireCache
   * - ready: the image seen active by this reconcile
   * - imageAbsent: the image that was observed absent while its tombstone was held
   * - released: releaseDiscoveryImage returned done
   */
  datatype Memory = Memory(
    status: Status,
    cleanup: bool,
    demandAbsent: bool,
    armed: Option<Kind>,
    absent: set<Kind>,
    snapshot: Option<Digest>,
    view: CacheView,
    holding: Option<CacheUid>,
    ready: Option<CacheUid>,
    imageAbsent: Option<CacheUid>,
    released: bool)

  function FreshMemory(status: Status, cleanup: bool): Memory {
    Memory(status, cleanup, false, None, {}, None, Unread, None, None, None, false)
  }

  datatype Policy = Policy(retainAll: bool, retainOSVolume: bool)

  /** Never: the finalizer was not added yet. Retained: removed under CleanupPolicy Retain. */
  datatype Finalizer = Never | Held | Removed | Retained

  datatype Worker = Worker(
    status: Status,
    cloud: seq<Resource>,
    deleting: bool,
    finalizer: Finalizer,
    demand: bool,
    policy: Policy,
    mem: Option<Memory>)

  function NewWorker(policy: Policy): Worker {
    Worker(EMPTY_STATUS, [], false, Never, true, policy, None)
  }

  /** A refresh may start only while nothing was built from the image. */
  predicate CanRefresh(st: Status) {
    && Server !in st.ids
    && DiscoveryVolume !in st.ids
    && st.pendingCreate == None
    && !st.agentKnown
    && !st.instanceCreated
  }

  /** Port, MAC and OS volume are recorded: the image is prepared only after them. */
  predicate BlankMachine(st: Status) {
    Port in st.ids && st.macKnown && OSVolume in st.ids
  }

  /** What must be recorded before kind k may be requested. */
  predicate Prerequisites(st: Status, k: Kind) {
    match k
    case Port => true
    case OSVolume => Port in st.ids && st.macKnown
    case DiscoveryVolume => BlankMachine(st) && st.imageID.Some?
    case Server =>
      BlankMachine(st) && st.imageID.Some? && DiscoveryVolume in st.ids
  }

  /** Cleanup deletes in the order server, discovery volume, OS volume, port. */
  function DeletedBefore(k: Kind, policy: Policy): set<Kind> {
    match k
    case Server => {}
    case DiscoveryVolume => {Server}
    case OSVolume => {Server, DiscoveryVolume}
    case Port => if policy.retainOSVolume then {Server, DiscoveryVolume} else {Server, DiscoveryVolume, OSVolume}
  }

  function DeletedKinds(policy: Policy): set<Kind> {
    DeletedBefore(Port, policy) + {Port}
  }
}
