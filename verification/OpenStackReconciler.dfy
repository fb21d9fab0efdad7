/**
 * The OpenStackAgent reconciler as code: each method follows one Go function, call by call.
 *
 * The object holds the reconcile's own variables, the worker's stored status, and the rest of
 * the cluster. Before every API call every other worker, the environment and Glance may act
 * (Interfere). Every call and assignment is recorded as an action of the protocol, so what is
 * proved here is that the code only takes actions the protocol allows: the recorded history
 * stays a legal run, and a crash is a legal action after every prefix of it.
 */
module OpenStackReconciler {
  import opened Common
  import opened OpenStackTypes
  import opened OpenStackWorker
  import opened OpenStackCache
  import opened OpenStackRuns
  import opened OpenStackCleanup
  import opened OpenStackWork

  /** Everything outside the reconcile, its stored status and its own cloud resources. */
  datatype World = World(
    deleting: bool,
    demand: bool,
    others: map<WorkerUid, Worker>,
    caches: Caches,
    present: map<CacheKey, CacheUid>,
    images: Images)

  datatype Trace = Trace(states: seq<State>, log: seq<Action>)

  /** Answer to a lookup by name and owner. */
  datatype Lookup = Hit(id: nat) | NotListed | LookupError

  /** What becomes of a POST. */
  datatype Delivery = Answered | ReplyLost | Refused | NotDelivered

  /** Answer to a POST. Unknown covers a lost reply and a reply without an ID. */
  datatype Reply = Created(id: nat) | Rejected | Unknown

  /** What one GET says about a resource: failed, available or ACTIVE, bootable. */
  datatype Observation = Observation(failed: bool, settled: bool, bootable: bool)

  /** What a reconcile gets to see of its resources, its image, its Agent and its demand. */
  datatype Sightings = Sightings(
    macReported: bool,
    osVolume: Observation,
    imageQueued: bool,
    discoveryVolume: Observation,
    server: Observation,
    agentFound: bool,
    demandDeleting: bool)

  /** Result of a step that may fail. Non-retryable errors set the phase to Failed. */
  datatype Verdict = Ok | Err(retryable: bool)

  /** What was added to the cloud is at most one resource of each of these kinds. */
  ghost predicate CreatedOnly(cloud: seq<Resource>, cloud': seq<Resource>, kinds: set<Kind>) {
    && CloudGrows(cloud, cloud') && |cloud'| <= |cloud| + |kinds|
    && forall i :: |cloud| <= i < |cloud'| ==> cloud'[i].kind in kinds
  }

  /** The later trace goes on from the earlier one. */
  ghost predicate Continues(h: Trace, h': Trace) {
    h.states <= h'.states && h.log <= h'.log
  }

  /** From position n of the trace on, each cleanup of w began after the deletes asked for before had taken effect. */
  ghost predicate EffectiveFrom(h: Trace, n: nat, w: WorkerUid) {
    forall j {:trigger h.log[j]} :: n <= j < |h.log| && j < |h.states| && h.log[j] == Local(w, BeginCleanup) ==>
      DeletesTookEffect(h.states[j], w)
  }

  lemma EffectiveBefore(h: Trace, n: nat, h': Trace, n': nat, w: WorkerUid)
    requires Continues(h, h') && EffectiveFrom(h', n', w) && n' <= n
    ensures EffectiveFrom(h, n, w)
  {
    forall j {:trigger h.log[j]} | n <= j < |h.log| && j < |h.states| && h.log[j] == Local(w, BeginCleanup)
      ensures DeletesTookEffect(h.states[j], w)
    {
      assert h'.log[j] == h.log[j] && h'.states[j] == h.states[j];
    }
  }

  lemma EffectiveAt(h: Trace, h': Trace, n: nat, w: WorkerUid)
    requires Continues(h, h') && EffectiveFrom(h', n, w)
    requires n < |h.log| && n < |h.states| && h.log[n] == Local(w, BeginCleanup)
    ensures DeletesTookEffect(h.states[n], w)
  {
    assert h'.log[n] == h.log[n] && h'.states[n] == h.states[n];
  }

  /** Demand exists, the object is not being deleted, and the image that a reconcile works with is active. */
  ghost predicate Fair(s: State, w: WorkerUid) {
    && w in s.workers && s.workers[w].demand && !s.workers[w].deleting
    && (s.workers[w].mem.Some? && s.workers[w].mem.value.status.imageID.Some? ==>
          var u := s.workers[w].mem.value.status.imageID.value;
          ImageExists(s.images, u) && s.images[u].active)
  }

  /** The same in every state from position n of the trace on. */
  ghost predicate Favourable(h: Trace, n: nat, w: WorkerUid) {
    forall j :: n <= j < |h.states| ==> Fair(h.states[j], w)
  }

  lemma FavourableWithin(h: Trace, n: nat, h': Trace, n': nat, w: WorkerUid)
    requires Continues(h, h') && n' <= n
    ensures Favourable(h', n', w) ==> Favourable(h, n, w)
  {}

  /** The copy of the cache that the reconcile of w has read is still the stored one. */
  ghost predicate CopyHolds(s: State, w: WorkerUid) {
    w in s.workers && s.workers[w].mem.Some? ==>
      var m := s.workers[w].mem.value;
      && (m.view.Seen? ==> ViewCurrent(s, m))
      && (m.view == Missing && m.status.cacheName.Some? ==> m.status.cacheName.value !in s.present)
  }

  /** Nobody else changed the cache behind a copy that was read, from position n of the trace on. */
  ghost predicate Unrivalled(h: Trace, n: nat, w: WorkerUid) {
    forall j :: n <= j < |h.states| ==> CopyHolds(h.states[j], w)
  }

  lemma UnrivalledWithin(h: Trace, n: nat, h': Trace, n': nat, w: WorkerUid)
    requires Continues(h, h') && n' <= n
    ensures Unrivalled(h', n', w) ==> Unrivalled(h, n, w)
  {}

  lemma FreshUid(caches: Caches) returns (u: CacheUid)
    ensures u !in caches
  {
    u := Above(caches.Keys);
  }

  lemma Above(uids: set<CacheUid>) returns (u: CacheUid)
    ensures forall v :: v in uids ==> v < u
  {
    if uids == {} {
      u := 0;
    } else {
      var v :| v in uids;
      u := Above(uids - {v});
      u := if v < u then u else v + 1;
      assert forall x :: x in uids ==> x == v || x in uids - {v};
    }
  }

  /** Everything that provisioning waits for has come about. */
  predicate NothingToWaitFor(seen: Sightings) {
    && seen.macReported && seen.osVolume.settled && seen.osVolume.bootable && seen.discoveryVolume.settled
    && !seen.demandDeleting
  }

  /** The passes left until a server is recorded: resolve an open entry, build the network, build the server. */
  function PassesLeft(st: Status): (n: nat)
    ensures n <= 3 && (n == 0 <==> Server in st.ids)
  {
    if Server in st.ids then 0
    else (if Port in st.ids && st.macKnown then 1 else 2) + (if st.pendingCreate.Some? then 1 else 0)
  }

  /** An error-free pass that has nothing to wait for gets closer to a recorded server. */
  predicate Closer(before: Status, after: Status) {
    after.phase != RefreshingDiscoveryImage && (PassesLeft(after) == 0 || PassesLeft(after) < PassesLeft(before))
  }

  /** Number of rounds that reported no error. */
  function ErrorFree(verdicts: seq<Verdict>): nat {
    if verdicts == [] then 0
    else ErrorFree(verdicts[..|verdicts| - 1]) + if verdicts[|verdicts| - 1].Ok? then 1 else 0
  }

  lemma ContinuesOn()
    ensures forall a :: Continues(a, a)
    ensures forall a, b, c :: Continues(a, b) && Continues(b, c) ==> Continues(a, c)
    ensures forall a, b :: Continues(a, b) ==> |a.log| <= |b.log|
  {}

  lemma CreatedBoth(x: seq<Resource>, y: seq<Resource>, z: seq<Resource>, first: set<Kind>, second: set<Kind>)
    requires CreatedOnly(x, y, first) && CreatedOnly(y, z, second) && first !! second
    ensures CreatedOnly(x, z, first + second)
  {
    assert |first + second| == |first| + |second|;
  }

  lemma CreatedLess(x: seq<Resource>, y: seq<Resource>, kinds: set<Kind>, more: set<Kind>)
    requires CreatedOnly(x, y, kinds) && kinds <= more
    ensures CreatedOnly(x, y, more)
  {
    assert |more| == |kinds| + |more - kinds| by { assert more == kinds + (more - kinds); }
  }

  lemma NothingCreated(x: seq<Resource>, y: seq<Resource>)
    requires CloudMoves(x, y)
    ensures CreatedOnly(x, y, {})
  {}

  lemma RefersNowhere(caches: Caches, u: CacheUid, w: WorkerUid, caches': Caches)
    requires u in caches && u in caches' && caches' == caches[u := caches'[u]] && w !in caches'[u].refs
    requires forall v :: Refers(caches, v, w) ==> v == u
    ensures forall v :: !Refers(caches', v, w)
  {
    forall v ensures !Refers(caches', v, w) {
      assert v != u ==> (Refers(caches', v, w) <==> Refers(caches, v, w));
    }
  }

  lemma AskedGrows(x: seq<Resource>, y: seq<Resource>, id: nat)
    requires CloudMoves(x, y) && id < |x|
    ensures |y| == |x| && y[id].kind == x[id].kind && CloudGrows(x, y)
    ensures CloudGrows(x, y[id := y[id].(deleteRequested := true)])
  {}

  lemma WentStays(x: seq<Resource>, y: seq<Resource>)
    ensures CloudMoves(x, y) && ResourcesWent(x) ==> ResourcesWent(y)
  {}

  lemma MovesOn(x: seq<Resource>, y: seq<Resource>, z: seq<Resource>)
    requires CloudMoves(x, y) && CloudMoves(y, z)
    ensures CloudMoves(x, z)
  {}

  lemma ImagesStayKnown(s: State, a: Action)
    requires Enabled(s, a)
    ensures s.images.Keys <= Next(s, a).images.Keys
  {}

  lemma PostStep(wk: Worker, k: Kind, replied: bool)
    requires Provisioning(wk) && wk.mem.value.armed == Some(k)
    ensures LocalEnabled(wk, Post(k, replied)) && LocalNext(wk, Post(k, replied)) == AfterPost(wk, k, replied)
  {}

  lemma CacheSteps(s: State, w: WorkerUid)
    requires w in s.workers
    ensures CanAddReference(s, w, s.workers[w]) ==> StepOf(s, AddReference(w), DoAddReference(s, w, s.workers[w]))
    ensures CanDropReference(s, s.workers[w]) ==> StepOf(s, DropReference(w), DoDropReference(s, w, s.workers[w]))
    ensures CanDeleteCache(s, s.workers[w]) ==> StepOf(s, DeleteCache(w), DoDeleteCache(s, w, s.workers[w]))
  {}

  /** Whether some answer that a reconcile got was an error or stood in its way. */
  class Answers {
    ghost var adverse: bool
  }

  class Reconciler {
    const w: WorkerUid
    const env: Answers
    const policy: Policy

    // the stored object
    var stored: Status
    var finalizer: Finalizer

    // the reconcile: a.Status and local variables
    var running: bool
    var status: Status
    var cleanup: bool
    var demandAbsent: bool
    var armed: Option<Kind>
    var absent: set<Kind>
    var snapshot: Option<Digest>
    var view: CacheView
    var holding: Option<CacheUid>
    var ready: Option<CacheUid>
    var imageAbsent: Option<CacheUid>
    var released: bool

    // the rest
    var cloud: seq<Resource>
    var world: World
    ghost var history: Trace

    function Mem(): Memory reads this {
      Memory(status, cleanup, demandAbsent, armed, absent, snapshot, view, holding, ready, imageAbsent, released)
    }

    function AsWorker(): Worker reads this {
      Worker(stored, cloud, world.deleting, finalizer, world.demand, policy, if running then Some(Mem()) else None)
    }

    function Now(): State reads this {
      State(world.others[w := AsWorker()], world.caches, world.present, world.images)
    }

    /** What cleanup of this worker still has to ask for. */
    function Todo(): Work reads this {
      Work(policy, cloud, world.caches, world.images, (if running then status else stored).imageID)
    }

    /** The recorded history is a legal run from the empty cluster to the present state. */
    ghost predicate Legal() reads this {
      History(history.states, history.log) && history.states[|history.log|] == Now()
    }

    /** Records one action that led from the state before to the present one. */
    ghost method Record(before: State, a: Action)
      requires History(history.states, history.log) && history.states[|history.log|] == before
      requires StepOf(before, a, Now())
      modifies `history
      ensures Continues(old(history), history)
      ensures Legal() && history.log == old(history.log) + [a]
    {
      history := Trace(history.states + [Now()], history.log + [a]);
    }

    /** Records one action of this reconcile that led from worker record wk to the present one. */
    ghost method RecordStep(wk: Worker, step: LocalAction)
      requires History(history.states, history.log)
      requires history.states[|history.log|] == State(world.others[w := wk], world.caches, world.present, world.images)
      requires LocalEnabled(wk, step) && AsWorker() == LocalNext(wk, step)
      modifies `history
      ensures Continues(old(history), history)
      ensures Legal() && history.log == old(history.log) + [Local(w, step)]
    {
      var before := State(world.others[w := wk], world.caches, world.present, world.images);
      assert world.others[w := wk][w := AsWorker()] == world.others[w := AsWorker()];
      Record(before, Local(w, step));
    }

    /** Records one action on the shared part, given the state it leads to. */
    ghost method RecordShared(before: State, wk: Worker, a: Action, after: State)
      requires History(history.states, history.log) && history.states[|history.log|] == before
      requires w in before.workers && before.workers[w] == wk && StepOf(before, a, after)
      requires after.workers == before.workers[w := AsWorker()] && before.workers == world.others[w := wk]
      requires after.caches == world.caches && after.present == world.present && after.images == world.images
      modifies `history
      ensures Continues(old(history), history)
      ensures Legal()
    {
      assert world.others[w := wk][w := AsWorker()] == world.others[w := AsWorker()];
      Record(before, a);
    }

    /** Any number of actions of anybody but this reconcile. */
    method Interfere()
      requires Legal()
      modifies `cloud, `world, `history
      ensures Continues(old(history), history)
      ensures Legal()
      ensures CloudMoves(old(cloud), cloud) && Shrinks(old(Todo()), Todo())
      ensures (world.demand ==> old(world.demand)) && (old(world.deleting) ==> world.deleting)
      ensures old(world.images).Keys <= world.images.Keys
    {
      hide Continues, Shrinks, Legal;
      ContinuesOn();
      ShrinksOn();
      var n: nat := *;
      while n > 0
        invariant Legal() && Continues(old(history), history)
        invariant CloudMoves(old(cloud), cloud) && Shrinks(old(Todo()), Todo())
        invariant (world.demand ==> old(world.demand)) && (old(world.deleting) ==> world.deleting)
        invariant old(world.images).Keys <= world.images.Keys
      {
        Disturb();
        n := n - 1;
      }
    }

    method Disturb()
      requires Legal()
      modifies `cloud, `world, `history
      ensures Continues(old(history), history)
      ensures Legal()
      ensures CloudMoves(old(cloud), cloud) && Shrinks(old(Todo()), Todo())
      ensures (world.demand ==> old(world.demand)) && (old(world.deleting) ==> world.deleting)
      ensures old(world.images).Keys <= world.images.Keys
    {
      hide Enabled, Next, History, Continues, Shrinks, CleanupInv;
      ContinuesOn();
      ShrinksOn();
      var a: Action := *;
      var before := Now();
      if Enabled(before, a) && !TakenBy(a, w) {
        OthersLeaveWorkerAlone(before, a, w);
        NowCleanupInv();
        ImagesStayKnown(before, a);
        ghost var todo := Todo();
        var after := Next(before, a);
        var wk := after.workers[w];
        cloud := wk.cloud;
        world := World(wk.deleting, wk.demand, after.workers, after.caches, after.present, after.images);
        assert after.workers[w := wk] == after.workers;
        OthersAddNoWork(before, a, w, todo, Todo());
        Record(before, a);
      }
    }

    /** A trace that is favourable so far is fair now. */
    lemma FairNow(n: nat)
      requires Legal() && n <= |history.log| && Favourable(history, n, w)
      ensures world.demand && !world.deleting
      ensures running && status.imageID.Some? ==>
                ImageExists(world.images, status.imageID.value) && world.images[status.imageID.value].active
    {
      assert Fair(history.states[|history.log|], w);
    }

    /** A copy that nobody interfered with is current now. */
    lemma CopyHoldsNow(n: nat)
      requires Legal() && running && n <= |history.log| && Unrivalled(history, n, w)
      ensures view.Seen? ==> ViewCurrent(Now(), Mem())
      ensures view == Missing && status.cacheName.Some? ==> status.cacheName.value !in world.present
    {
      assert CopyHolds(history.states[|history.log|], w);
      assert Now().workers[w].mem == Some(Mem());
    }

    // ---------- API calls and in-memory assignments ----------

    /** On the provisioning path, outside a refresh. */
    predicate InProvision() reads this {
      running && !cleanup && !released && status.phase != RefreshingDiscoveryImage
    }

    /** Past authorizeCleanup. */
    predicate InCleanup() reads this {
      running && cleanup && demandAbsent && status.phase == Deleting && !policy.retainAll
    }

    /** The stored journal entry, if any, is still in memory or its resource is recorded there. */
    ghost predicate JournalFollowed() reads this {
      stored.pendingCreate.Some? ==>
        status.pendingCreate == stored.pendingCreate || stored.pendingCreate.value in status.ids
    }

    /**
     * status(): read, compare, update under the resourceVersion. A write that fails may land although
     * the caller sees an error; one that works leaves the stored status equal to the one in memory.
     */
    method WriteStatus(works: bool)
      requires Legal() && running
      modifies env, `stored, `armed, `cloud, `world, `history
      ensures Continues(old(history), history)
      ensures (old(env.adverse) ==> env.adverse) && (!works ==> env.adverse)
      ensures Legal() && CloudMoves(old(cloud), cloud) && (world.demand ==> old(world.demand))
      ensures (old(world.deleting) ==> world.deleting) && Shrinks(old(Todo()), Todo())
      ensures works ==> stored == status
      ensures old(world.images).Keys <= world.images.Keys
      ensures stored == status || stored == old(stored)
      ensures works && status.pendingCreate.Some? && status.pendingCreate != old(stored.pendingCreate) && !cleanup ==>
                armed == status.pendingCreate
    {
      hide Continues, Shrinks;
      ContinuesOn();
      Interfere();
      var lands: bool := *;
      if works || lands {
        LandStatus();
      }
      env.adverse := env.adverse || !works;
    }

    method LandStatus()
      requires Legal() && running
      modifies `stored, `armed, `history
      ensures Continues(old(history), history)
      ensures Legal() && stored == status
      ensures status.pendingCreate.Some? && status.pendingCreate != old(stored.pendingCreate) && !cleanup ==>
                armed == status.pendingCreate
    {
      hide History, Continues;
      ContinuesOn();
      ghost var before := AsWorker();
      if status.pendingCreate.Some? && status.pendingCreate != stored.pendingCreate && !cleanup {
        armed := status.pendingCreate;
      }
      stored := status;
      RecordStep(before, StatusWritten);
    }

    method SetPhaseLabel(phase: Phase)
      requires Legal() && running && status.phase != RefreshingDiscoveryImage && (phase == Progress || phase == Failed)
      modifies `status, `history
      ensures Continues(old(history), history)
      ensures Legal() && status == old(status).(phase := phase)
    {
      ghost var before := AsWorker();
      status := status.(phase := phase);
      RecordStep(before, SetPhase(phase));
    }

    method SetPendingCreate(k: Kind)
      requires Legal() && InProvision() && status.pendingCreate == None && k !in status.ids && Prerequisites(status, k)
      requires k == DiscoveryVolume || k == Server ==> ready == status.imageID
      modifies `status, `history
      ensures Continues(old(history), history)
      ensures Legal() && status == old(status).(pendingCreate := Some(k))
    {
      ghost var before := AsWorker();
      status := status.(pendingCreate := Some(k));
      RecordStep(before, SetPending(k));
    }

    /** Find by exact name and owner. A hit is listed from then on; a miss proves nothing by itself. */
    method Find(k: Kind, works: bool) returns (r: Lookup)
      requires Legal()
      modifies env, `cloud, `world, `history
      ensures Continues(old(history), history)
      ensures (old(env.adverse) ==> env.adverse) && (r.LookupError? ==> env.adverse)
      ensures Legal() && CloudMoves(old(cloud), cloud)
      ensures (r.LookupError? <==> !works) && (r.NotListed? ==> NothingListed(cloud, k))
      ensures r.Hit? ==> r.id < |cloud| && cloud[r.id].kind == k && cloud[r.id].listed && !cloud[r.id].gone
    {
      hide Continues;
      ContinuesOn();
      Interfere();
      if !works {
        r := LookupError;
        env.adverse := true;
      } else if NothingListed(cloud, k) {
        r := NotListed;
      } else {
        var id :| 0 <= id < |cloud| && cloud[id].kind == k && cloud[id].listed && !cloud[id].gone;
        r := Hit(id);
      }
    }

    /** Get by recorded ID: exact. */
    method Get(k: Kind, works: bool) returns (v: Verdict)
      requires Legal() && k in status.ids
      modifies env, `cloud, `world, `history
      ensures Continues(old(history), history)
      ensures (old(env.adverse) ==> env.adverse) && (v.Err? ==> env.adverse)
      ensures Legal() && CloudMoves(old(cloud), cloud)
      ensures v.Ok? <==> works && status.ids[k] < |cloud| && !cloud[status.ids[k]].gone
    {
      hide Continues;
      ContinuesOn();
      Interfere();
      v := if !works || status.ids[k] >= |cloud| || cloud[status.ids[k]].gone then Err(false) else Ok;
      env.adverse := env.adverse || v.Err?;
    }

    method RecordResource(k: Kind, id: nat)
      requires Legal() && InProvision() && k !in status.ids
      requires id < |cloud| && cloud[id].kind == k && cloud[id].listed && !cloud[id].gone
      requires status.pendingCreate == None || status.pendingCreate == Some(k)
      modifies `status, `armed, `history
      ensures Continues(old(history), history)
      ensures Legal() && status == OpenStackWorker.Recorded(old(status), k, id)
    {
      ghost var before := AsWorker();
      status := OpenStackWorker.Recorded(status, k, id);
      armed := None;
      RecordStep(before, RecordFound(k, id));
    }

    /** Create: the POST lands at most once; a rejection means that nothing was created. */
    method PostCreate(k: Kind, delivery: Delivery) returns (r: Reply)
      requires Legal() && InProvision() && armed == Some(k)
      modifies env, `status, `armed, `cloud, `world, `history
      ensures Continues(old(history), history)
      ensures (old(env.adverse) ==> env.adverse) && (!r.Created? ==> env.adverse)
      ensures Legal()
      ensures CloudGrows(old(cloud), cloud) && |cloud| <= |old(cloud)| + 1
      ensures |cloud| > |old(cloud)| ==> cloud[|old(cloud)|].kind == k
      ensures |cloud| > |old(cloud)| <==> delivery == Answered || delivery == ReplyLost
      ensures (r.Created? <==> delivery == Answered) && (r.Rejected? <==> delivery == Refused)
      ensures match r
              case Created(id) => id == |old(cloud)| == |cloud| - 1 &&
                   status == OpenStackWorker.Recorded(old(status), k, id)
              case Rejected => |cloud| == |old(cloud)| && status == old(status).(pendingCreate := None)
              case Unknown => status == old(status)
    {
      hide Legal, Continues, Shrinks;
      ContinuesOn();
      Interfere();
      r := Unknown;
      if delivery == Answered {
        r := Created(|cloud|);
        LandPost(k, true);
      } else if delivery == ReplyLost {
        LandPost(k, false);
      } else if delivery == Refused {
        r := Rejected;
        RejectPost(k);
      }
      env.adverse := env.adverse || !r.Created?;
    }

    method RejectPost(k: Kind)
      requires Legal() && InProvision() && armed == Some(k)
      modifies `status, `armed, `history
      ensures Continues(old(history), history)
      ensures Legal() && status == old(status).(pendingCreate := None)
    {
      ghost var before := AsWorker();
      armed := None;
      status := status.(pendingCreate := None);
      RecordStep(before, PostRejected(k));
    }

    method LandPost(k: Kind, replied: bool)
      requires Legal() && InProvision() && armed == Some(k)
      modifies `status, `armed, `cloud, `history
      ensures Continues(old(history), history)
      ensures Legal()
      ensures cloud == old(cloud) + [Resource(k, false, false, false)]
      ensures status == if replied then OpenStackWorker.Recorded(old(status), k, |old(cloud)|) else old(status)
    {
      hide History, Continues, LocalEnabled, LocalNext, OpenStackWorker.Recorded;
      ghost var before := AsWorker();
      PostStep(before, k, replied);
      armed := None;
      status := if replied then OpenStackWorker.Recorded(status, k, |cloud|) else status;
      cloud := cloud + [Resource(k, false, false, false)];
      RecordStep(before, Post(k, replied));
    }

    // ---------- ensureResource ----------

    /** Image identity, phase and observations are untouched. */
    static ghost predicate SameIdentity(st: Status, st': Status) {
      && st'.cacheName == st.cacheName && st'.isoDigest == st.isoDigest && st'.imageID == st.imageID
      && st'.phase == st.phase && st'.macKnown == st.macKnown && st'.agentKnown == st.agentKnown
    }

    /**
     * Finds, adopts or creates the one resource of kind k. At most one POST is sent, only when
     * nothing was recorded or journaled before, and only after its journal entry was stored.
     */
    method EnsureResource(k: Kind) returns (v: Verdict)
      requires Legal() && InProvision() && JournalFollowed() && Prerequisites(status, k)
      requires k == DiscoveryVolume || k == Server ==> ready == status.imageID
      requires status.pendingCreate == None || status.pendingCreate == Some(k)
      modifies env, `status, `stored, `armed, `cloud, `world, `history
      ensures Continues(old(history), history)
      ensures (old(env.adverse) ==> env.adverse) && (v.Err? ==> env.adverse)
      ensures Legal() && SameIdentity(old(status), status)
      ensures CloudGrows(old(cloud), cloud) && |cloud| <= |old(cloud)| + 1
      ensures |cloud| > |old(cloud)| ==>
                && cloud[|old(cloud)|].kind == k && stored.pendingCreate == Some(k)
                && old(k !in status.ids && status.pendingCreate == None)
      ensures stored == old(stored) || stored == old(status).(pendingCreate := Some(k))
      ensures v.Ok? ==>
                && k in status.ids && JournalFollowed()
                && (old(k in status.ids) ==> status == old(status))
                && (old(k !in status.ids) ==> status == OpenStackWorker.Recorded(old(status), k, status.ids[k]))
    {
      hide Legal, Continues;
      ContinuesOn();
      if k in status.ids {
        var works: bool := *;
        v := Get(k, works);
        return;
      }
      var works: bool := *;
      var found := Find(k, works);
      match found
      case Hit(id) =>
        RecordResource(k, id);
        v := Ok;
      case LookupError =>
        var retryable: bool := *;
        v := Err(retryable);
      case NotListed =>
        if status.pendingCreate != None {
          v := Err(true);
          env.adverse := true;
          return;
        }
        v := JournalAndPost(k);
    }

    /** Stores the intent. On success this reconcile, and no other, may send the POST. */
    method JournalIntent(k: Kind) returns (ok: bool)
      requires Legal() && InProvision() && JournalFollowed() && Prerequisites(status, k)
      requires k == DiscoveryVolume || k == Server ==> ready == status.imageID
      requires status.pendingCreate == None && k !in status.ids
      modifies env, `status, `stored, `armed, `cloud, `world, `history
      ensures Continues(old(history), history)
      ensures (old(env.adverse) ==> env.adverse) && (!ok ==> env.adverse)
      ensures Legal() && status == old(status).(pendingCreate := Some(k)) && CloudMoves(old(cloud), cloud)
      ensures stored == old(stored) || stored == status
      ensures ok ==> stored == status && armed == Some(k)
    {
      hide Legal, Continues;
      ContinuesOn();
      SetPendingCreate(k);
      ok := *;
      WriteStatus(ok);
    }

    method JournalAndPost(k: Kind) returns (v: Verdict)
      requires Legal() && InProvision() && JournalFollowed() && Prerequisites(status, k)
      requires k == DiscoveryVolume || k == Server ==> ready == status.imageID
      requires status.pendingCreate == None && k !in status.ids
      modifies env, `status, `stored, `armed, `cloud, `world, `history
      ensures Continues(old(history), history)
      ensures (old(env.adverse) ==> env.adverse) && (v.Err? ==> env.adverse)
      ensures Legal() && SameIdentity(old(status), status)
      ensures CloudGrows(old(cloud), cloud) && |cloud| <= |old(cloud)| + 1
      ensures |cloud| > |old(cloud)| ==> cloud[|old(cloud)|].kind == k && stored.pendingCreate == Some(k)
      ensures stored == old(stored) || stored == old(status).(pendingCreate := Some(k))
      ensures v.Ok? ==>
                k in status.ids && status == OpenStackWorker.Recorded(old(status), k, status.ids[k]) &&
                    JournalFollowed()
    {
      hide Legal, Continues;
      ContinuesOn();
      var ok := JournalIntent(k);
      if !ok {
        v := Err(true);
        return;
      }
      var delivery: Delivery := *;
      var reply := PostCreate(k, delivery);
      match reply
      case Created(_) => v := Ok;
      case Rejected => v := Err(false);
      case Unknown => v := Err(true);
    }

    // ---------- acquireCache ----------

    /** releaseDiscoveryImage runs: at the end of cleanup, or under a durable refresh journal. */
    predicate InRelease() reads this {
      && running && !released
      && (|| (InCleanup() && DeletedKinds(policy) <= absent)
          || (&& !cleanup && holding == None
              && stored.phase == RefreshingDiscoveryImage && status.phase == RefreshingDiscoveryImage))
    }

    method ReadCacheMap()
      requires Legal() && (InProvision() || InRelease()) && status.cacheName.Some?
      modifies `view, `cloud, `world, `history
      ensures Continues(old(history), history)
      ensures Legal() && CloudMoves(old(cloud), cloud) && (view == Missing || view.Seen?) &&
              Shrinks(old(Todo()), Todo())
    {
      hide Continues, Shrinks;
      ContinuesOn();
      Interfere();
      ghost var before := Now();
      view := ReadName(Now(), status.cacheName.value);
      RecordShared(before, before.workers[w], ReadCache(w), DoReadCache(before, w, before.workers[w]));
    }

    method CreateCacheMap(works: bool) returns (ok: bool)
      requires Legal() && InProvision() && view == Missing
      requires status.cacheName.Some? && stored.cacheName == status.cacheName
      modifies env, `view, `holding, `cloud, `world, `history
      ensures Continues(old(history), history)
      ensures (old(env.adverse) ==> env.adverse) && (!ok ==> env.adverse)
      ensures Legal() && CloudMoves(old(cloud), cloud) && (ok ==> holding.Some?)
      ensures !ok ==> !works || !Unrivalled(history, |old(history.log)|, w)
    {
      hide Continues, Shrinks, Unrivalled, History;
      ContinuesOn();
      ok := false;
      ghost var n := |history.log|;
      Interfere();
      ghost var h := history;
      if Unrivalled(h, n, w) {
        CopyHoldsNow(n);
      }
      if status.cacheName.value !in world.present {
        ghost var unused := FreshUid(world.caches);
        var u: CacheUid :| u !in world.caches;
        var lands: bool := *;
        if works || lands {
          LandCreateCache(u);
        }
        ok := works;
      }
      UnrivalledWithin(h, n, history, n, w);
      env.adverse := env.adverse || !ok;
    }

    method LandCreateCache(u: CacheUid)
      requires Legal() && CanCreateCache(Now(), AsWorker(), u)
      modifies `view, `holding, `world, `history
      ensures Continues(old(history), history)
      ensures Legal() && holding == Some(u)
    {
      hide History;
      ghost var before := Now();
      ghost var wk := AsWorker();
      var key := status.cacheName.value;
      view, holding := Unread, Some(u);
      world := world.(caches := world.caches[u := Cache(key, 0, Active, {w})], present := world.present[key := u]);
      RecordShared(before, wk, CreateCache(w, u), DoCreateCache(before, w, wk, u));
    }

    /** Update under the resourceVersion that was read. */
    method AddReferenceUnderLock(works: bool) returns (ok: bool)
      requires Legal() && InProvision() && view.Seen? && view.active && w !in view.refs
      requires status.cacheName.Some? && stored.cacheName == status.cacheName
      modifies env, `view, `holding, `cloud, `world, `history
      ensures Continues(old(history), history)
      ensures (old(env.adverse) ==> env.adverse) && (!ok ==> env.adverse)
      ensures Legal() && CloudMoves(old(cloud), cloud) && (ok ==> holding.Some?)
      ensures !ok ==> !works || !Unrivalled(history, |old(history.log)|, w)
    {
      hide Legal, Continues, Shrinks, Unrivalled;
      ContinuesOn();
      ok := false;
      ghost var n := |history.log|;
      Interfere();
      ghost var h := history;
      if Unrivalled(h, n, w) {
        CopyHoldsNow(n);
      }
      if ViewCurrent(Now(), Mem()) {
        var lands: bool := *;
        if works || lands {
          LandAddReference();
        }
        ok := works;
      }
      UnrivalledWithin(h, n, history, n, w);
      env.adverse := env.adverse || !ok;
    }

    method LandAddReference()
      requires Legal() && CanAddReference(Now(), w, AsWorker())
      modifies `view, `holding, `world, `history
      ensures Continues(old(history), history)
      ensures Legal() && holding.Some?
    {
      hide History, StepOf;
      ghost var before := Now();
      ghost var wk := AsWorker();
      CacheSteps(before, w);
      var u := view.uid;
      var c := world.caches[u];
      view, holding := Unread, Some(u);
      world := world.(caches := world.caches[u := c.(version := c.version + 1, refs := c.refs + {w})]);
      RecordShared(before, wk, AddReference(w), DoAddReference(before, w, wk));
    }

    method KeepExistingReference()
      requires Legal() && InProvision() && view.Seen? && view.active && w in view.refs
      modifies `view, `holding, `history
      ensures Continues(old(history), history)
      ensures Legal() && holding.Some?
    {
      ghost var before := Now();
      holding := Some(view.uid);
      view := Unread;
      RecordShared(before, before.workers[w], KeepReference(w), DoKeepReference(before, w, before.workers[w]));
    }

    /** Joins the cache under its resourceVersion, creates it, or refuses a tombstone. */
    method AcquireCache(works: bool) returns (v: Verdict)
      requires Legal() && InProvision()
      requires status.cacheName.Some? && stored.cacheName == status.cacheName
      modifies env, `view, `holding, `cloud, `world, `history
      ensures Continues(old(history), history)
      ensures (old(env.adverse) ==> env.adverse) && (v.Err? ==> env.adverse)
      ensures Legal() && CloudMoves(old(cloud), cloud)
      ensures v.Err? ==> !works || !Unrivalled(history, |old(history.log)|, w) || (view.Seen? && !view.active)
      ensures v.Ok? ==> holding.Some? && Refers(world.caches, holding.value, w)
      ensures v.Ok? ==>
                world.caches[holding.value].phase == Active && status.cacheName == Some(world.caches[holding.value].key)
    {
      hide Legal, Continues, Shrinks, Unrivalled;
      ContinuesOn();
      ReadCacheMap();
      ghost var n := |history.log|;
      if view == Missing {
        var ok := CreateCacheMap(works);
        v := if ok then Ok else Err(true);
      } else if !view.active {
        v := Err(true);
        env.adverse := true;
      } else if w in view.refs {
        KeepExistingReference();
        v := Ok;
      } else {
        var ok := AddReferenceUnderLock(works);
        v := if ok then Ok else Err(true);
      }
      UnrivalledWithin(history, n, history, |old(history.log)|, w);
      if v.Ok? {
        HeldCacheIsActive();
      }
    }

    /** What a held cache is worth: the worker is referenced by the active ConfigMap of that name. */
    lemma HeldCacheIsActive()
      requires Legal() && running && holding.Some?
      ensures Refers(world.caches, holding.value, w)
      ensures world.caches[holding.value].phase == Active && status.cacheName == Some(world.caches[holding.value].key)
      ensures status.imageID.Some? && !cleanup && status.phase != RefreshingDiscoveryImage ==> status.imageID == holding
    {
      var now := Now();
      NowInvariant();
      assert Linked(now.caches, now.images, w, now.workers[w]);
      assert CacheOK(now, holding.value);
    }

    /** When another cache or none carries the recorded name, the pinned image is gone. */
    lemma PinnedImageWent()
      requires Legal() && running && status.imageID.Some? && status.cacheName.Some?
      requires status.cacheName.value in world.present ==>
                 world.present[status.cacheName.value] != status.imageID.value
      ensures !ImageExists(world.images, status.imageID.value)
    {
      NowCleanupInv();
      var now, u := Now(), status.imageID.value;
      assert WorkerNamed(now.caches, now.workers[w]);
      assert CacheOK(now, u);
      if u in now.images {
        assert ImageOK(now, u);
      }
    }

    lemma PinnedIsKnown()
      requires Legal() && running
      ensures status.imageID.Some? ==> status.imageID.value in world.caches
    {
      NowCleanupInv();
      assert WorkerNamed(Now().caches, Now().workers[w]);
    }

    lemma NowCleanupInv()
      requires Legal()
      ensures CleanupInv(Now())
    {
      HistoryIsRun(history.states, history.log);
      ReachableCleanupInv(Now());
    }

    lemma NowInvariant()
      requires Legal()
      ensures Inv(Now())
    {
      HistoryIsRun(history.states, history.log);
      ReachableInvariant(Now());
    }

    // ---------- prepareDiscoveryImage, ensureDiscoveryImage, uploadDiscoverySnapshot ----------

    /** Downloads the ISO of the InfraEnv; its digest is whatever the source serves now. */
    method DownloadDiscovery(served: Option<Digest>) returns (ok: bool)
      requires Legal() && InProvision()
      modifies env, `snapshot, `cloud, `world, `history
      ensures Continues(old(history), history)
      ensures (old(env.adverse) ==> env.adverse) && (!ok ==> env.adverse)
      ensures old(world.images).Keys <= world.images.Keys
      ensures Legal() && CloudMoves(old(cloud), cloud)
      ensures (ok <==> served.Some?) && snapshot == if ok then served else old(snapshot)
    {
      hide Continues, Shrinks, History;
      ContinuesOn();
      Interfere();
      ok := served.Some?;
      if ok {
        ghost var before := AsWorker();
        snapshot := served;
        RecordStep(before, Download(served.value));
      }
      env.adverse := env.adverse || !ok;
    }

    method PinName(key: CacheKey)
      requires Legal() && InProvision() && status.cacheName == None && snapshot == Some(key.digest)
      requires BlankMachine(status)
      modifies `status, `history
      ensures Continues(old(history), history)
      ensures Legal() && status == old(status).(cacheName := Some(key), isoDigest := Some(key.digest))
    {
      ghost var before := AsWorker();
      status := status.(cacheName := Some(key), isoDigest := Some(key.digest));
      RecordStep(before, PinCacheName(key));
    }

    method PinImage()
      requires Legal() && InProvision() && status.imageID == None && holding.Some?
      modifies `status, `history
      ensures Continues(old(history), history)
      ensures Legal() && status == old(status).(imageID := holding)
    {
      ghost var before := AsWorker();
      status := status.(imageID := holding);
      RecordStep(before, PinImageID);
    }

    method JournalRefresh()
      requires Legal() && InProvision() && CanRefresh(status)
      modifies `status, `history
      ensures Continues(old(history), history)
      ensures Legal() && status == old(status).(phase := RefreshingDiscoveryImage)
    {
      ghost var before := AsWorker();
      status := status.(phase := RefreshingDiscoveryImage);
      RecordStep(before, EnterRefresh);
    }

    /** Get by image ID and owning cache. */
    method ImagePresent(u: CacheUid) returns (present: bool)
      requires Legal()
      modifies `cloud, `world, `history
      ensures Continues(old(history), history)
      ensures Legal() && CloudMoves(old(cloud), cloud) && present == ImageExists(world.images, u)
    {
      Interfere();
      present := ImageExists(world.images, u);
    }

    /** Create with a supplied ID; an image that exists by then answers with a conflict. */
    method CreateGlanceImage(works: bool) returns (ok: bool)
      requires Legal() && InProvision() && holding.Some? && status.imageID == holding && stored.imageID == holding
      modifies env, `cloud, `world, `history
      ensures Continues(old(history), history)
      ensures (old(env.adverse) ==> env.adverse) && (!ok ==> env.adverse)
      ensures old(world.images).Keys <= world.images.Keys
      ensures Legal() && CloudMoves(old(cloud), cloud) && (ok ==> ImageExists(world.images, holding.value))
      ensures !ok ==> !works || ImageExists(world.images, holding.value)
    {
      hide Continues, Shrinks;
      ContinuesOn();
      ok := false;
      Interfere();
      var lands: bool := *;
      if !ImageExists(world.images, holding.value) && (works || lands) {
        ghost var before := Now();
        world := world.(images := world.images[holding.value := Image(false, None, false, false)]);
        RecordShared(before, before.workers[w], CreateImage(w), DoCreateImage(before, before.workers[w]));
        ok := works;
      }
      env.adverse := env.adverse || !ok;
    }

    /** Whatever content the image of a held cache has is the one that the key names. */
    lemma HeldContent()
      requires Legal() && running && holding.Some? && holding.value in world.images
      requires world.images[holding.value].content.Some?
      ensures Refers(world.caches, holding.value, w)
      ensures world.images[holding.value].content == Some(world.caches[holding.value].key.digest)
    {
      HeldCacheIsActive();
      NowInvariant();
      hide Legal;
      assert ImageOK(Now(), holding.value);
    }

    /** The uploaded bytes are the downloaded snapshot whose digest the cache is keyed by. */
    method UploadSnapshot(works: bool) returns (v: Verdict)
      requires Legal() && InProvision() && holding.Some? && status.imageID == holding
      requires snapshot.Some? && snapshot == status.isoDigest
      modifies env, `cloud, `world, `history
      ensures Continues(old(history), history)
      ensures (old(env.adverse) ==> env.adverse) && (v.Err? ==> env.adverse)
      ensures old(world.images).Keys <= world.images.Keys
      ensures Legal() && CloudMoves(old(cloud), cloud)
      ensures v.Err? ==> !works || !ImageExists(world.images, holding.value)
      ensures v.Ok? ==>
                && Refers(world.caches, holding.value, w) && holding.value in world.images
                && world.images[holding.value].content == Some(world.caches[holding.value].key.digest)
    {
      hide Legal, Continues;
      ContinuesOn();
      v := Err(true);
      Interfere();
      var lands: bool := *;
      if ImageExists(world.images, holding.value) && (works || lands) {
        LandUpload();
        HeldContent();
        v := if works then Ok else Err(true);
      }
      env.adverse := env.adverse || v.Err?;
    }

    method LandUpload()
      requires Legal() && CanUploadImage(Now(), AsWorker())
      modifies `world, `history
      ensures Continues(old(history), history)
      ensures world.images.Keys == old(world.images).Keys
      ensures Legal() && holding.value in world.images && world.images[holding.value].content == snapshot
    {
      ghost var before := Now();
      var u := holding.value;
      world := world.(images := world.images[u := world.images[u].(content := snapshot)]);
      RecordShared(before, before.workers[w], UploadImage(w), DoUploadImage(before, before.workers[w]));
    }

    method SeeActive() returns (active: bool)
      requires Legal() && InProvision() && holding.Some? && status.imageID == holding
      modifies `ready, `cloud, `world, `history
      ensures Continues(old(history), history)
      ensures old(world.images).Keys <= world.images.Keys
      ensures Legal() && CloudMoves(old(cloud), cloud)
      ensures if active then ready == status.imageID else ready == old(ready)
      ensures !active ==> !(ImageExists(world.images, holding.value) && world.images[holding.value].active)
    {
      hide Continues, Shrinks;
      ContinuesOn();
      active := false;
      Interfere();
      if ImageExists(world.images, holding.value) && world.images[holding.value].active {
        ghost var before := Now();
        ready := holding;
        active := true;
        RecordShared(before, before.workers[w], ObserveActive(w), DoObserveActive(before, w, before.workers[w]));
      }
    }

    /** The image of the held cache has the content that its key names. */
    ghost predicate Uploaded() reads this {
      && holding.Some? && Refers(world.caches, holding.value, w) && holding.value in world.images
      && world.images[holding.value].content == Some(world.caches[holding.value].key.digest)
    }

    /** Uploads the file of this reconcile, or a new download if a restart lost it. */
    method UploadDiscoverySnapshot() returns (v: Verdict)
      requires Legal() && InProvision() && holding.Some? && status.imageID == holding
      requires snapshot.Some? ==> snapshot == status.isoDigest
      modifies env, `snapshot, `status, `stored, `armed, `cloud, `world, `history
      ensures Continues(old(history), history)
      ensures (old(env.adverse) ==> env.adverse) && (v.Err? ==> env.adverse)
      ensures old(world.images).Keys <= world.images.Keys
      ensures Legal() && CloudMoves(old(cloud), cloud)
      ensures status == old(status) ||
              (CanRefresh(old(status)) && status == old(status).(phase := RefreshingDiscoveryImage))
      ensures stored == old(stored) || stored == status
      ensures v.Ok? && status == old(status) ==> Uploaded()
    {
      hide Legal, Continues;
      ContinuesOn();
      if snapshot == None {
        var served: Option<Digest> := *;
        var ok := DownloadDiscovery(served);
        if !ok {
          v := Err(true);
          return;
        }
        if snapshot != status.isoDigest {
          if !CanRefresh(status) {
            v := Err(false);
            env.adverse := true;
            return;
          }
          JournalRefresh();
          ok := *;
          WriteStatus(ok);
          v := if ok then Ok else Err(true);
          return;
        }
      }
      var works: bool := *;
      v := UploadSnapshot(works);
    }

    /** Joins the cache, pins its image and brings the image to active. */
    method EnsureDiscoveryImage(queued: bool) returns (v: Verdict, done: bool)
      requires Legal() && InProvision()
      requires status.cacheName.Some? && stored.cacheName == status.cacheName
      requires status.imageID.Some? ==> stored.imageID == status.imageID
      requires snapshot.Some? ==> snapshot == status.isoDigest
      modifies env, `view, `holding, `ready, `snapshot, `status, `stored, `armed, `cloud, `world, `history
      ensures Continues(old(history), history)
      ensures (old(env.adverse) ==> env.adverse) && (v.Err? ==> env.adverse)
      ensures Legal() && CloudMoves(old(cloud), cloud)
      ensures done ==>
                v.Ok? && status == old(status).(imageID := status.imageID) && status.imageID.Some? &&
                    ready == status.imageID
      ensures status.phase != old(status.phase) ==> status.phase == RefreshingDiscoveryImage
      ensures v.Ok? && Favourable(history, |old(history.log)|, w) ==> done
      ensures status.pendingCreate == old(status.pendingCreate) && status.ids == old(status.ids)
      ensures stored == old(stored) || stored.pendingCreate == old(status.pendingCreate)
    {
      hide Legal, Continues;
      ContinuesOn();
      done := false;
      var works: bool := *;
      v := AcquireCache(works);
      if !v.Ok? {
        return;
      }
      v := PinImageAndCheckpoint();
      if !v.Ok? {
        return;
      }
      ghost var n := |history.log|;
      v, done := BringImageToActive(queued);
      FavourableWithin(history, n, history, |old(history.log)|, w);
    }

    /** The pinned image is the one of the held cache; ImageCacheIdentityChanged cannot occur. */
    method PinImageAndCheckpoint() returns (v: Verdict)
      requires Legal() && InProvision() && holding.Some?
      requires status.imageID.Some? ==> stored.imageID == status.imageID
      modifies env, `status, `stored, `armed, `cloud, `world, `history
      ensures Continues(old(history), history)
      ensures (old(env.adverse) ==> env.adverse) && (v.Err? ==> env.adverse)
      ensures Legal() && CloudMoves(old(cloud), cloud)
      ensures status == old(status).(imageID := status.imageID) && status.imageID == holding
      ensures v.Ok? ==> stored.imageID == holding
      ensures stored == old(stored) || stored == status
    {
      hide Legal, Continues;
      ContinuesOn();
      v := Ok;
      if status.imageID == None {
        PinImage();
        var ok: bool := *;
        WriteStatus(ok);
        v := if ok then Ok else Err(true);
      } else {
        HeldCacheIsActive();
      }
    }

    method BringImageToActive(queued: bool) returns (v: Verdict, done: bool)
      requires Legal() && InProvision() && holding.Some? && status.imageID == holding && stored.imageID == holding
      requires snapshot.Some? ==> snapshot == status.isoDigest
      modifies env, `ready, `snapshot, `status, `stored, `armed, `cloud, `world, `history
      ensures Continues(old(history), history)
      ensures (old(env.adverse) ==> env.adverse) && (v.Err? ==> env.adverse)
      ensures Legal() && CloudMoves(old(cloud), cloud)
      ensures done ==> v.Ok? && status == old(status) && ready == status.imageID
      ensures status == old(status) ||
              (CanRefresh(old(status)) && status == old(status).(phase := RefreshingDiscoveryImage))
      ensures stored == old(stored) || stored == status
      ensures v.Ok? && Favourable(history, |old(history.log)|, w) ==> done
      ensures v.Ok? && !done && queued && status == old(status) ==> Uploaded()
      ensures v.Ok? ==> holding.value in world.images
    {
      hide Legal, Continues, Favourable;
      ContinuesOn();
      done := false;
      v := Ok;
      ghost var n := |history.log|;
      var present := ImagePresent(holding.value);
      if !present {
        var works: bool := *;
        var ok := CreateGlanceImage(works);
        if !ok {
          v := Err(true);
          return;
        }
      }
      done := SeeActive();
      if done {
        var sizeMatches: bool := *;
        if !sizeMatches {
          v, done := Err(false), false;
          env.adverse := true;
        }
        return;
      }
      ghost var h := history;
      if Favourable(h, n, w) {
        FairNow(n);
      }
      if queued {
        v := UploadDiscoverySnapshot();
        FavourableWithin(h, n, history, n, w);
      }
    }

    /** Pins name and digest of one download before any cache is touched. */
    method PrepareDiscoveryImage(queued: bool) returns (v: Verdict, done: bool)
      requires Legal() && InProvision() && snapshot == None && BlankMachine(status)
      requires status.cacheName.Some? ==> stored.cacheName == status.cacheName
      requires status.imageID.Some? ==> status.cacheName.Some? && stored.imageID == status.imageID
      modifies env, `view, `holding, `ready, `snapshot, `status, `stored, `armed, `cloud, `world, `history
      ensures Continues(old(history), history)
      ensures (old(env.adverse) ==> env.adverse) && (v.Err? ==> env.adverse)
      ensures Legal() && CloudMoves(old(cloud), cloud)
      ensures done ==> v.Ok? && status.imageID.Some? && ready == status.imageID && status.phase == old(status.phase)
      ensures done ==> status.macKnown == old(status.macKnown)
      ensures status.phase != old(status.phase) ==> status.phase == RefreshingDiscoveryImage
      ensures v.Ok? && Favourable(history, |old(history.log)|, w) ==> done
      ensures status.pendingCreate == old(status.pendingCreate) && status.ids == old(status.ids)
      ensures stored == old(stored) || stored.pendingCreate == old(status.pendingCreate)
    {
      hide Legal, Continues;
      ContinuesOn();
      done := false;
      if status.cacheName == None {
        var served: Option<Digest> := *;
        var ok := DownloadDiscovery(served);
        if !ok {
          v := Err(true);
          return;
        }
        var scope: nat, infraEnv: nat := *, *;
        PinName(CacheKey(scope, infraEnv, snapshot.value));
        ok := *;
        WriteStatus(ok);
        if !ok {
          v := Err(true);
          return;
        }
      }
      ghost var n := |history.log|;
      v, done := EnsureDiscoveryImage(queued);
      FavourableWithin(history, n, history, |old(history.log)|, w);
    }

    // ---------- releaseDiscoveryImage and refreshDiscoveryImage ----------

    /** Nothing refers to this worker any more. */
    lemma ReleasedRefersNowhere()
      requires Legal() && running && released
      ensures forall u :: !Refers(world.caches, u, w)
    {
      NowInvariant();
      assert Linked(Now().caches, Now().images, w, Now().workers[w]);
    }

    method LandFinishRelease()
      requires Legal() && CanFinishRelease(Now(), AsWorker())
      modifies `released, `history
      ensures Continues(old(history), history)
      ensures Legal() && released
    {
      ghost var before := Now();
      released := true;
      RecordShared(before, before.workers[w], FinishRelease(w), DoFinishRelease(before, w, before.workers[w]));
    }

    /** The recorded image is gone and no other cache may be touched. */
    method FinishIfImageGone() returns (v: Verdict, done: bool)
      requires Legal() && InRelease() && status.imageID.Some? && status.cacheName.Some?
      requires view == Missing || (view.Seen? && view.uid != status.imageID.value)
      modifies env, `released, `cloud, `world, `history
      ensures Continues(old(history), history)
      ensures (old(env.adverse) ==> env.adverse) && (v.Err? ==> env.adverse)
      ensures Legal() && CloudMoves(old(cloud), cloud) && (done ==> v.Ok? && released)
      ensures Shrinks(old(Todo()), Todo()) && (v.Ok? ==> done)
      ensures v.Err? ==> !Unrivalled(history, |old(history.log)|, w)
    {
      hide Legal, Continues, Shrinks, Unrivalled;
      ContinuesOn();
      v, done := Err(false), false;
      ghost var n := |history.log|;
      Interfere();
      if Unrivalled(history, n, w) {
        CopyHoldsNow(n);
        PinnedImageWent();
      }
      if !ImageExists(world.images, status.imageID.value) {
        LandFinishRelease();
        v, done := Ok, true;
      }
      env.adverse := env.adverse || v.Err?;
    }

    /** Removes the reference under the resourceVersion; the last one leaves a tombstone. The write may land unseen. */
    method DropReferenceUnderLock(works: bool) returns (v: Verdict, done: bool)
      requires Legal() && InRelease() && status.cacheName.Some?
      requires view.Seen? && view.active && (status.imageID == None || status.imageID == Some(view.uid))
      modifies env, `view, `released, `cloud, `world, `history
      ensures Continues(old(history), history)
      ensures (old(env.adverse) ==> env.adverse) && (v.Err? ==> env.adverse)
      ensures Legal() && CloudMoves(old(cloud), cloud) && (done ==> v.Ok? && released)
      ensures v.Ok? ==> view == Unread && forall u :: !Refers(world.caches, u, w)
      ensures Shrinks(old(Todo()), Todo())
      ensures v.Err? ==> !works || !Unrivalled(history, |old(history.log)|, w)
      ensures v.Ok? && !done && status.imageID.Some? ==>
                !ImageDone(old(Todo())) && ImageStage(Todo()) < ImageStage(old(Todo()))
    {
      hide Legal, Continues, Shrinks, ImageStage, ImageDone, Unrivalled;
      ContinuesOn();
      ShrinksOn();
      ghost var start := Todo();
      v, done := Err(true), false;
      ghost var n := |history.log|;
      Interfere();
      ghost var h := history;
      if Unrivalled(h, n, w) {
        CopyHoldsNow(n);
      }
      var lands: bool := *;
      if ViewCurrent(Now(), Mem()) && (works || lands) {
        ghost var mid := Todo();
        LandDropReference();
        ShrinksMeans(start, mid);
        if works {
          v, done := Ok, released;
        }
      }
      UnrivalledWithin(h, n, history, n, w);
      env.adverse := env.adverse || v.Err?;
    }

    method LandDropReference()
      requires Legal() && CanDropReference(Now(), AsWorker())
      modifies `view, `released, `world, `history
      ensures Continues(old(history), history)
      ensures Legal() && view == Unread && forall u :: !Refers(world.caches, u, w)
      ensures Shrinks(old(Todo()), Todo())
      ensures status.imageID.Some? ==>
                !ImageDone(old(Todo())) && (!released ==> ImageStage(Todo()) < ImageStage(old(Todo())))
    {
      DroppedIsActive();
      hide History, Continues, Shrinks, ImageStage, ImageDone, StepOf, Refers;
      ghost var todo := Todo();
      ghost var before := Now();
      CacheSteps(before, w);
      ghost var wk := AsWorker();
      var rest := world.caches[view.uid].refs - {w};
      world := world.(caches := DoDropReference(Now(), w, AsWorker()).caches);
      CacheMovesOn(todo, view.uid, Todo());
      RefersNowhere(before.caches, view.uid, w, world.caches);
      view, released := Unread, rest != {};
      RecordShared(before, wk, DropReference(w), DoDropReference(before, w, wk));
    }

    /** A copy that is still current tells the truth, and a worker refers to no other cache. */
    lemma DroppedIsActive()
      requires Legal() && CanDropReference(Now(), AsWorker())
      ensures world.caches[view.uid].phase == Active
      ensures forall u :: Refers(world.caches, u, w) ==> u == view.uid
    {
      hide Inv, History;
      NowInvariant();
      InvariantViews(Now());
      assert Now().workers[w].mem == Some(Mem());
    }

    /** A tombstone that was read is still one. */
    lemma ReadTombstoneStays()
      requires Legal() && running && view.Seen? && !view.active
      ensures view.uid in world.caches && world.caches[view.uid].phase != Active
    {
      hide Inv, History;
      NowInvariant();
      InvariantViews(Now());
      assert Now().workers[w].mem == Some(Mem());
    }

    /** Nobody refers to a tombstone, and its reader refers to no other cache. */
    lemma TombstoneRefersNowhere()
      requires Legal() && running && view.Seen? && !view.active
      ensures forall u :: !Refers(world.caches, u, w)
    {
      hide Inv, History;
      ReadTombstoneStays();
      NowInvariant();
      InvariantViews(Now());
      CacheIsOK(Now(), view.uid);
      assert Now().workers[w].mem == Some(Mem());
    }

    lemma CacheIsOK(s: State, u: CacheUid)
      requires Inv(s) && u in s.caches
      ensures CacheOK(s, u)
    {}

    method LandDeleteImage()
      requires Legal() && CanDeleteImage(Now(), AsWorker())
      modifies `world, `history
      ensures Continues(old(history), history)
      ensures Legal() && view.uid in world.images && world.images[view.uid].deleteRequested
      ensures Shrinks(old(Todo()), Todo()) && (status.imageID == Some(view.uid) ==> ImageStage(Todo()) == 1)
    {
      ReadTombstoneStays();
      hide Continues, UnaskedResources;
      ghost var before := Now();
      var u := view.uid;
      world := world.(images := world.images[u := world.images[u].(deleteRequested := true)]);
      RecordShared(before, before.workers[w], DeleteImage(w), DoDeleteImage(before, before.workers[w]));
    }

    method NoteImageAbsent()
      requires Legal() && CanObserveImageAbsent(Now(), AsWorker())
      modifies `imageAbsent, `history
      ensures Continues(old(history), history)
      ensures Legal() && imageAbsent == Some(view.uid)
    {
      ghost var before := Now();
      imageAbsent := Some(view.uid);
      RecordShared(before, before.workers[w], ObserveImageAbsent(w),
          DoObserveImageAbsent(before, w, before.workers[w]));
    }

    method LandDeleteCache()
      requires Legal() && CanDeleteCache(Now(), AsWorker())
      modifies `released, `world, `history
      ensures Continues(old(history), history)
      ensures Legal() && released && status.cacheName.value !in world.present && Shrinks(old(Todo()), Todo())
    {
      ReadTombstoneStays();
      hide History, Continues, Shrinks, StepOf;
      ghost var todo := Todo();
      ghost var before := Now();
      ghost var wk := AsWorker();
      CacheSteps(before, w);
      var after := DoDeleteCache(Now(), w, AsWorker());
      world := world.(present := after.present, caches := after.caches);
      CacheMovesOn(todo, view.uid, Todo());
      released := true;
      RecordShared(before, wk, DeleteCache(w), after);
    }

    /** Asks for the delete of the image behind a tombstone; it may have gone meanwhile. */
    method DeleteTombstonedImage()
      requires Legal() && InRelease() && status.cacheName.Some?
      requires view.Seen? && !view.active && (status.imageID == None || status.imageID == Some(view.uid))
      modifies `cloud, `world, `history
      ensures Continues(old(history), history)
      ensures Legal() && CloudMoves(old(cloud), cloud) && Shrinks(old(Todo()), Todo())
      ensures status.imageID.Some? ==> ImageStage(Todo()) == 1
      ensures ImageExists(world.images, view.uid) ==> world.images[view.uid].deleteRequested
    {
      hide History, Continues, Shrinks;
      ContinuesOn();
      ShrinksOn();
      Interfere();
      ReadTombstoneStays();
      if ImageExists(world.images, view.uid) {
        LandDeleteImage();
      }
    }

    /** Deletes the ConfigMap of a tombstone without image, under UID and resourceVersion. */
    method DeleteTombstone(works: bool) returns (v: Verdict, done: bool)
      requires Legal() && InRelease() && status.cacheName.Some?
      requires view.Seen? && !view.active && (status.imageID == None || status.imageID == Some(view.uid))
      requires !ImageExists(world.images, view.uid)
      modifies env, `imageAbsent, `released, `cloud, `world, `history
      ensures Continues(old(history), history)
      ensures (old(env.adverse) ==> env.adverse) && (v.Err? ==> env.adverse)
      ensures Legal() && CloudMoves(old(cloud), cloud) && Shrinks(old(Todo()), Todo())
      ensures v.Ok? <==> done
      ensures v.Err? ==> !works || !Unrivalled(history, |old(history.log)|, w)
      ensures done ==> released
    {
      hide Legal, Continues, Shrinks, Unrivalled;
      ContinuesOn();
      NoteImageAbsent();
      ghost var n := |history.log|;
      v, done := DeleteNotedTombstone(works);
      UnrivalledWithin(history, n, history, |old(history.log)|, w);
    }

    method DeleteNotedTombstone(works: bool) returns (v: Verdict, done: bool)
      requires Legal() && InRelease() && status.cacheName.Some?
      requires view.Seen? && !view.active && (status.imageID == None || status.imageID == Some(view.uid))
      requires imageAbsent == Some(view.uid)
      modifies env, `released, `cloud, `world, `history
      ensures Continues(old(history), history)
      ensures (old(env.adverse) ==> env.adverse) && (v.Err? ==> env.adverse)
      ensures Legal() && CloudMoves(old(cloud), cloud) && Shrinks(old(Todo()), Todo())
      ensures v.Ok? <==> done
      ensures v.Err? ==> !works || !Unrivalled(history, |old(history.log)|, w)
      ensures done ==> released
    {
      hide Legal, Continues, Shrinks, ViewCurrent, Unrivalled;
      ContinuesOn();
      ShrinksOn();
      v, done := Err(true), false;
      ghost var n := |history.log|;
      Interfere();
      ghost var h := history;
      if Unrivalled(h, n, w) {
        CopyHoldsNow(n);
      }
      if status.cacheName.value in world.present && !ViewCurrent(Now(), Mem()) {
        env.adverse := true;
        return;
      }
      var lands: bool := *;
      if works || lands {
        LandDeleteCache();
        UnrivalledWithin(h, n, history, n, w);
      }
      done := works;
      v := if done then Ok else Err(true);
      env.adverse := env.adverse || !done;
    }

    /** Holding the tombstone: delete the image if it is still there, otherwise the ConfigMap. */
    method CollectTombstone(works: bool) returns (v: Verdict, done: bool)
      requires Legal() && InRelease() && status.cacheName.Some?
      requires view.Seen? && !view.active && (status.imageID == None || status.imageID == Some(view.uid))
      modifies env, `imageAbsent, `released, `cloud, `world, `history
      ensures Continues(old(history), history)
      ensures (old(env.adverse) ==> env.adverse) && (v.Err? ==> env.adverse)
      ensures Legal() && CloudMoves(old(cloud), cloud) && (done ==> v.Ok? && released)
      ensures Shrinks(old(Todo()), Todo())
      ensures v.Err? ==> !works || !Unrivalled(history, |old(history.log)|, w)
      ensures v.Ok? && !done && status.imageID.Some? ==> !ImageDone(old(Todo())) && ImageStage(Todo()) == 1
      ensures v.Ok? && !done && ImageExists(world.images, view.uid) ==> world.images[view.uid].deleteRequested
      ensures v.Ok? && !done ==> forall u :: !Refers(world.caches, u, w)
    {
      hide Legal, Continues, Shrinks, ImageStage, Unrivalled;
      ContinuesOn();
      ShrinksOn();
      ghost var start := Todo();
      Interfere();
      ShrinksMeans(start, Todo());
      if ImageExists(world.images, view.uid) {
        DeleteTombstonedImage();
        TombstoneRefersNowhere();
        v, done := Ok, false;
      } else {
        ghost var n := |history.log|;
        v, done := DeleteTombstone(works);
        UnrivalledWithin(history, n, history, |old(history.log)|, w);
      }
    }

    /** What releaseDiscoveryImage does with the ConfigMap that it has read. */
    method ReleaseSeen(works: bool) returns (v: Verdict, done: bool)
      requires Legal() && InRelease() && status.cacheName.Some? && (view == Missing || view.Seen?)
      modifies env, `view, `imageAbsent, `released, `cloud, `world, `history
      ensures Continues(old(history), history)
      ensures (old(env.adverse) ==> env.adverse) && (v.Err? ==> env.adverse)
      ensures Legal() && CloudMoves(old(cloud), cloud) && (done ==> v.Ok? && released)
      ensures v.Ok? && !done ==> forall u :: !Refers(world.caches, u, w)
      ensures v.Ok? && !done && view.Seen? ==>
                !view.active && (ImageExists(world.images, view.uid) ==> world.images[view.uid].deleteRequested)
      ensures v.Err? ==> !works || !Unrivalled(history, |old(history.log)|, w)
      ensures Shrinks(old(Todo()), Todo())
      ensures v.Ok? && !done && status.imageID.Some? ==>
                !ImageDone(old(Todo())) && (ImageStage(Todo()) == 1 || ImageStage(Todo()) < ImageStage(old(Todo())))
    {
      hide Legal, Continues, Shrinks, ImageStage, ImageDone, Unrivalled;
      ContinuesOn();
      ShrinksOn();
      if view == Missing && status.imageID == None {
        LandFinishRelease();
        v, done := Ok, true;
      } else if view == Missing || (status.imageID.Some? && status.imageID.value != view.uid) {
        v, done := FinishIfImageGone();
      } else if view.active {
        v, done := DropReferenceUnderLock(works);
      } else {
        v, done := CollectTombstone(works);
      }
    }

    /** Gives up the reference and finishes collection if it was the last one. */
    method ReleaseDiscoveryImage(works: bool) returns (v: Verdict, done: bool)
      requires Legal() && InRelease()
      modifies env, `view, `imageAbsent, `released, `cloud, `world, `history
      ensures Continues(old(history), history)
      ensures (old(env.adverse) ==> env.adverse) && (v.Err? ==> env.adverse)
      ensures Legal() && CloudMoves(old(cloud), cloud) && (done ==> v.Ok? && released)
      ensures v.Ok? ==> forall u :: !Refers(world.caches, u, w)
      ensures v.Ok? && !done && view.Seen? ==>
                !view.active && (ImageExists(world.images, view.uid) ==> world.images[view.uid].deleteRequested)
      ensures v.Err? ==> !works || !Unrivalled(history, |old(history.log)|, w)
      ensures Shrinks(old(Todo()), Todo()) && (v.Ok? && !done ==> status.cacheName.Some?)
      ensures v.Ok? && !done && status.imageID.Some? ==>
                !ImageDone(old(Todo())) && (ImageStage(Todo()) == 1 || ImageStage(Todo()) < ImageStage(old(Todo())))
    {
      hide Legal, Continues, Shrinks, ImageStage, ImageDone, Unrivalled;
      ContinuesOn();
      ShrinksOn();
      ghost var start := Todo();
      if status.cacheName == None {
        LandFinishRelease();
        v, done := Ok, true;
      } else {
        ReadCacheMap();
        ShrinksMeans(start, Todo());
        ghost var n := |history.log|;
        v, done := ReleaseSeen(works);
        UnrivalledWithin(history, n, history, |old(history.log)|, w);
      }
      if done {
        ReleasedRefersNowhere();
      }
    }

    method ClearIdentity()
      requires Legal() && running && !cleanup && released && status.phase == RefreshingDiscoveryImage &&
               CanRefresh(status)
      modifies `status, `history
      ensures Continues(old(history), history)
      ensures Legal() && status == Cleared(old(status))
    {
      ghost var before := AsWorker();
      status := status.(cacheName := None, imageID := None, isoDigest := None, phase := Progress);
      RecordStep(before, ClearImageIdentity);
    }

    /** Clears journal and identity together, and only after the release is complete. */
    method RefreshDiscoveryImage() returns (v: Verdict)
      requires Legal() && running && !cleanup && !released && holding == None
      requires stored.phase == RefreshingDiscoveryImage && status.phase == RefreshingDiscoveryImage
      modifies env, `status, `view, `imageAbsent, `released, `cloud, `world, `history
      ensures Continues(old(history), history)
      ensures (old(env.adverse) ==> env.adverse) && (v.Err? ==> env.adverse)
      ensures Legal() && CloudMoves(old(cloud), cloud)
      ensures status == old(status) || (status == Cleared(old(status)) && forall u :: !Refers(world.caches, u, w))
      ensures v.Ok? ==>
                || status == Cleared(old(status))
                || (&& status.cacheName.Some?
                    && (status.imageID.Some? ==>
                          !ImageDone(old(Todo())) &&
                              (ImageStage(Todo()) == 1 || ImageStage(Todo()) < ImageStage(old(Todo())))))
    {
      hide Legal, Continues;
      ContinuesOn();
      if !CanRefresh(status) {
        v := Err(false);
        env.adverse := true;
        return;
      }
      var done;
      var works: bool := *;
      v, done := ReleaseDiscoveryImage(works);
      if v.Ok? && done {
        ClearIdentity();
      }
    }

    // ---------- deleteResource and cleanup ----------

    method MarkAbsentByFind(k: Kind)
      requires Legal() && InCleanup() && k !in status.ids && status.pendingCreate != Some(k) && NothingListed(cloud, k)
      modifies `absent, `history
      ensures Continues(old(history), history)
      ensures Legal() && absent == old(absent) + {k}
    {
      ghost var before := AsWorker();
      absent := absent + {k};
      RecordStep(before, FoundNoResource(k));
    }

    method MarkAbsentByGet(k: Kind)
      requires Legal() && InCleanup() && k in status.ids && status.ids[k] < |cloud| && cloud[status.ids[k]].gone
      modifies `absent, `history
      ensures Continues(old(history), history)
      ensures Legal() && absent == old(absent) + {k}
    {
      ghost var before := AsWorker();
      absent := absent + {k};
      RecordStep(before, GotNoResource(k));
    }

    method ClearPending(k: Kind, id: nat)
      requires Legal() && InCleanup() && status.pendingCreate == Some(k)
      requires id < |cloud| && cloud[id].kind == k && cloud[id].listed && !cloud[id].gone
      modifies `status, `history
      ensures Continues(old(history), history)
      ensures Legal() && status == old(status).(pendingCreate := None)
    {
      ghost var before := AsWorker();
      status := status.(pendingCreate := None);
      RecordStep(before, ForgetPending(k, id));
    }

    method SendDelete(k: Kind, id: nat, works: bool) returns (v: Verdict)
      requires Legal() && InCleanup() && DeletedBefore(k, policy) <= absent &&
               (k == OSVolume ==> !policy.retainOSVolume)
      requires id < |cloud| && cloud[id].kind == k
      modifies env, `cloud, `world, `history
      ensures Continues(old(history), history)
      ensures (old(env.adverse) ==> env.adverse) && (v.Err? ==> env.adverse)
      ensures Legal() && CloudGrows(old(cloud), cloud) && (v.Ok? ==> cloud[id].deleteRequested)
      ensures Shrinks(old(Todo()), Todo()) && (v.Ok? <==> works)
      ensures v.Ok? && !old(cloud)[id].gone && !old(cloud)[id].deleteRequested ==>
                UnaskedResources(Todo()) < UnaskedResources(old(Todo()))
    {
      hide Legal, Continues, Shrinks, UnaskedResources, LocalNext, OneOfEachKind, CloudMoves,
           CloudGrows;
      ContinuesOn();
      ShrinksOn();
      ghost var start := Todo();
      OneResourceEach();
      Interfere();
      AskedGrows(start.cloud, cloud, id);
      var lands: bool := *;
      if works || lands {
        ghost var mid := Todo();
        LandDelete(k, id);
        AskedLess(start, id, mid, Todo());
      }
      v := if works then Ok else Err(true);
      env.adverse := env.adverse || v.Err?;
    }

    method LandDelete(k: Kind, id: nat)
      requires Legal() && LocalEnabled(AsWorker(), RequestDelete(k, id))
      modifies `cloud, `history
      ensures Continues(old(history), history)
      ensures Legal() && id < |cloud| && cloud == old(cloud)[id := old(cloud)[id].(deleteRequested := true)]
    {
      ghost var before := AsWorker();
      cloud := cloud[id := cloud[id].(deleteRequested := true)];
      RecordStep(before, RequestDelete(k, id));
    }

    lemma OneResourceEach()
      requires Legal()
      ensures OneOfEachKind(cloud)
    {
      NowInvariant();
      assert LocalInv(Now().workers[w]);
    }

    /** Kinds observed absent have no resource left. */
    lemma AbsentKindsAreGone()
      requires Legal() && running
      ensures AllGone(cloud, absent)
      ensures forall k :: k in status.ids ==>
                status.ids[k] < |cloud| && cloud[status.ids[k]].kind == k && status.pendingCreate != Some(k)
    {
      NowInvariant();
      assert LocalInv(Now().workers[w]);
    }

    /** Looks for the resource of kind k; absence is believed only without an open journal entry. */
    method Locate(k: Kind, works: bool) returns (v: Verdict, found: Option<nat>)
      requires Legal() && InCleanup()
      modifies env, `absent, `cloud, `world, `history
      ensures Continues(old(history), history)
      ensures (old(env.adverse) ==> env.adverse) && (v.Err? ==> env.adverse)
      ensures Legal() && CloudMoves(old(cloud), cloud)
      ensures v.Ok? && found == None ==> absent == old(absent) + {k}
      ensures !(v.Ok? && found == None) ==> absent == old(absent)
      ensures found.Some? ==> found.value < |cloud| && cloud[found.value].kind == k && !cloud[found.value].gone
      ensures Shrinks(old(Todo()), Todo())
      ensures found.Some? && status.pendingCreate == Some(k) ==> cloud[found.value].listed
      ensures v.Ok? && found == None ==> status.pendingCreate != Some(k)
      ensures v.Err? <==> !works || (k !in status.ids && status.pendingCreate == Some(k) && NothingListed(cloud, k))
    {
      hide Continues, Shrinks;
      ContinuesOn();
      v, found := Ok, None;
      Interfere();
      AbsentKindsAreGone();
      if !works {
        v := Err(true);
        env.adverse := true;
      } else if k in status.ids {
        if cloud[status.ids[k]].gone {
          MarkAbsentByGet(k);
        } else {
          found := Some(status.ids[k]);
        }
      } else if !NothingListed(cloud, k) {
        var id :| 0 <= id < |cloud| && cloud[id].kind == k && cloud[id].listed && !cloud[id].gone;
        found := Some(id);
      } else if status.pendingCreate == Some(k) {
        v := Err(true);
        env.adverse := true;
      } else {
        MarkAbsentByFind(k);
      }
    }

    /** Reports done only when no resource of the kind exists any more. */
    method DeleteResource(k: Kind) returns (v: Verdict, done: bool)
      requires Legal() && InCleanup() && DeletedBefore(k, policy) <= absent &&
               (k == OSVolume ==> !policy.retainOSVolume)
      modifies env, `status, `absent, `cloud, `world, `history
      ensures Continues(old(history), history)
      ensures (old(env.adverse) ==> env.adverse) && (v.Err? ==> env.adverse)
      ensures Legal() && CloudGrows(old(cloud), cloud)
      ensures status.phase == Deleting && (v.Ok? ==> status.pendingCreate != Some(k))
      ensures status == old(status) ||
              (old(status).pendingCreate == Some(k) && status == old(status).(pendingCreate := None))
      ensures absent == if done then old(absent) + {k} else old(absent)
      ensures status.imageID == old(status.imageID) && status.cacheName == old(status.cacheName)
      ensures done ==> v.Ok? && AllGone(cloud, {k}) && CloudMoves(old(cloud), cloud)
      ensures Shrinks(old(Todo()), Todo())
      ensures v.Ok? && !done && ResourcesWent(old(cloud)) ==> UnaskedResources(Todo()) < UnaskedResources(old(Todo()))
      ensures v.Ok? && !done ==> exists i :: 0 <= i < |cloud| && cloud[i].kind == k && cloud[i].deleteRequested
    {
      hide Legal, Continues, Shrinks, UnaskedResources;
      ContinuesOn();
      ShrinksOn();
      ghost var start := Todo();
      done := false;
      var found;
      var located: bool, deleted: bool := *, *;
      v, found := Locate(k, located);
      if !v.Ok? {
        return;
      }
      if found == None {
        done := true;
        AbsentKindsAreGone();
        return;
      }
      var attached: bool := *;
      if attached {
        v := Err(true);
        env.adverse := true;
        return;
      }
      if status.pendingCreate == Some(k) {
        ClearPending(k, found.value);
      }
      ShrinksMeans(start, Todo());
      v := SendDelete(k, found.value, deleted);
    }

    method StartCleanup()
      requires Legal() && running && cleanup
      modifies `status, `history
      ensures Continues(old(history), history)
      ensures Legal() && status == old(status).(phase := Deleting)
      ensures |history.log| > |old(history.log)| && |history.states| > |old(history.log)|
      ensures history.log[|old(history.log)|] == Local(w, BeginCleanup)
      ensures history.states[|old(history.log)|] == old(Now())
    {
      ghost var before := AsWorker();
      status := status.(phase := Deleting);
      RecordStep(before, BeginCleanup);
    }

    method DropFinalizer(works: bool) returns (v: Verdict)
      requires Legal() && InCleanup() && finalizer == Held && DeletedKinds(policy) <= absent && released
      modifies env, `finalizer, `cloud, `world, `history
      ensures Continues(old(history), history)
      ensures (old(env.adverse) ==> env.adverse) && (v.Err? ==> env.adverse)
      ensures Legal() && CloudGrows(old(cloud), cloud) && Shrinks(old(Todo()), Todo())
      ensures (finalizer == Removed || finalizer == Held) && (v.Ok? ==> finalizer == Removed) && (v.Ok? <==> works)
    {
      hide History, Continues, Shrinks;
      ContinuesOn();
      Interfere();
      var lands: bool := *;
      if works || lands {
        ghost var before := AsWorker();
        finalizer := Removed;
        RecordStep(before, RemoveFinalizer);
      }
      v := if works then Ok else Err(true);
      env.adverse := env.adverse || v.Err?;
    }

    method RetainFinalizer(works: bool) returns (v: Verdict)
      requires Legal() && running && cleanup && finalizer == Held && policy.retainAll
      modifies env, `finalizer, `cloud, `world, `history
      ensures Continues(old(history), history)
      ensures (old(env.adverse) ==> env.adverse) && (v.Err? ==> env.adverse)
      ensures Legal() && (finalizer == Retained || finalizer == Held) && (v.Ok? ==> finalizer == Retained)
      ensures Shrinks(old(Todo()), Todo()) && (v.Ok? <==> works)
    {
      hide History, Continues, Shrinks;
      ContinuesOn();
      Interfere();
      var lands: bool := *;
      if works || lands {
        ghost var before := AsWorker();
        finalizer := Retained;
        RecordStep(before, RetainAndRelease);
      }
      v := if works then Ok else Err(true);
      env.adverse := env.adverse || v.Err?;
    }

    /** The first two: nothing is attached to the OS volume and the port afterwards. */
    method DeleteMachine() returns (v: Verdict, done: bool)
      requires Legal() && InCleanup() && absent == {}
      modifies env, `status, `absent, `cloud, `world, `history
      ensures Continues(old(history), history)
      ensures (old(env.adverse) ==> env.adverse) && (v.Err? ==> env.adverse)
      ensures Legal() && status.phase == Deleting
      ensures status.imageID == old(status.imageID) && status.cacheName == old(status.cacheName)
      ensures done ==> v.Ok? && absent == {Server, DiscoveryVolume} && CloudMoves(old(cloud), cloud)
      ensures Shrinks(old(Todo()), Todo())
      ensures v.Ok? && !done && ResourcesWent(old(cloud)) ==> UnaskedResources(Todo()) < UnaskedResources(old(Todo()))
    {
      hide Legal, Continues, Shrinks, UnaskedResources, AllGone, CloudMoves, ResourcesWent;
      ContinuesOn();
      ShrinksOn();
      ghost var start := Todo();
      v, done := DeleteResource(Server);
      if !done { return; }
      ShrinksMeans(start, Todo());
      WentStays(start.cloud, cloud);
      ghost var mid := cloud;
      v, done := DeleteResource(DiscoveryVolume);
      if done {
        MovesOn(start.cloud, mid, cloud);
      }
    }

    /** Deletes server, discovery volume, OS volume and port in that order. */
    method DeleteResources() returns (v: Verdict, done: bool)
      requires Legal() && InCleanup() && absent == {}
      modifies env, `status, `absent, `cloud, `world, `history
      ensures Continues(old(history), history)
      ensures (old(env.adverse) ==> env.adverse) && (v.Err? ==> env.adverse)
      ensures Legal() && status.phase == Deleting
      ensures status.imageID == old(status.imageID) && status.cacheName == old(status.cacheName)
      ensures done ==> v.Ok? && absent == DeletedKinds(policy)
      ensures Shrinks(old(Todo()), Todo())
      ensures v.Ok? && !done && ResourcesWent(old(cloud)) ==> UnaskedResources(Todo()) < UnaskedResources(old(Todo()))
    {
      hide Legal, Continues, Shrinks, UnaskedResources, AllGone, CloudMoves, ResourcesWent;
      ContinuesOn();
      ShrinksOn();
      ghost var start := Todo();
      v, done := DeleteMachine();
      if !done { return; }
      ShrinksMeans(start, Todo());
      WentStays(start.cloud, cloud);
      if !policy.retainOSVolume {
        ghost var mid := cloud;
        v, done := DeleteResource(OSVolume);
        if !done { return; }
        ShrinksMeans(start, Todo());
        WentStays(mid, cloud);
      }
      v, done := DeleteResource(Port);
    }

    /** Past authorizeCleanup: resources, image reference, hosts, finalizer. */
    method RunCleanup() returns (v: Verdict)
      requires Legal() && InCleanup() && finalizer == Held && absent == {} && !released
      modifies env, `status, `absent, `view, `imageAbsent, `released, `finalizer, `cloud, `world, `history
      ensures Continues(old(history), history)
      ensures (old(env.adverse) ==> env.adverse) && (v.Err? ==> env.adverse)
      ensures Legal() && (finalizer == Held || finalizer == Removed) && Shrinks(old(Todo()), Todo())
      ensures finalizer == Removed ==> AllGone(cloud, DeletedKinds(policy)) && forall u :: !Refers(world.caches, u, w)
      ensures status.imageID == old(status.imageID) && status.cacheName == old(status.cacheName)
      ensures v.Ok? && old(NameSettled(status)) && ResourcesWent(old(cloud)) && ImageWent(old(Todo())) ==>
                finalizer == Removed || WorkLeft(Todo()) < WorkLeft(old(Todo()))
    {
      hide Legal, Continues, Shrinks, UnaskedResources, ImageStage, ImageDone, ImageWent;
      ContinuesOn();
      ShrinksOn();
      ghost var start := Todo();
      PinnedIsKnown();
      var done;
      v, done := DeleteResources();
      ghost var mid := Todo();
      ShrinksMeans(start, mid);
      if !done {
        return;
      }
      var works: bool := *;
      v, done := ReleaseDiscoveryImage(works);
      if !v.Ok? || !done {
        ReleaseLeavesLess(start, mid, Todo());
        return;
      }
      var hostsDeleted: bool := *;
      if !hostsDeleted {
        v := Err(true);
        env.adverse := true;
        return;
      }
      var updated: bool := *;
      v := DropFinalizer(updated);
      AbsentKindsAreGone();
      ReleasedRefersNowhere();
    }

    /** Removing the finalizer means that nothing of the worker is left anywhere. */
    method Cleanup() returns (v: Verdict)
      requires Legal() && running && cleanup && finalizer == Held && absent == {} && !released
      modifies env, `status, `absent, `view, `imageAbsent, `released, `finalizer, `cloud, `world, `history
      ensures Continues(old(history), history)
      ensures (old(env.adverse) ==> env.adverse) && (v.Err? ==> env.adverse)
      ensures Legal() && Shrinks(old(Todo()), Todo())
      ensures finalizer == Removed ==> AllGone(cloud, DeletedKinds(policy)) && forall u :: !Refers(world.caches, u, w)
      ensures if policy.retainAll then finalizer != Removed && (v.Ok? ==> finalizer == Retained)
              else finalizer == Held || finalizer == Removed
      ensures status.imageID == old(status.imageID) && status.cacheName == old(status.cacheName)
      ensures |history.log| > |old(history.log)| && |history.states| > |old(history.log)|
      ensures history.log[|old(history.log)|] == Local(w, BeginCleanup)
      ensures history.states[|old(history.log)|] == old(Now())
      ensures v.Ok? && !policy.retainAll && old(NameSettled(status)) && ResourcesWent(old(cloud)) &&
              ImageWent(old(Todo())) ==>
                finalizer == Removed || WorkLeft(Todo()) < WorkLeft(old(Todo()))
    {
      hide Legal, Shrinks, UnaskedResources, ImageStage, ImageWent;
      ContinuesOn();
      StartCleanup();
      if policy.retainAll {
        var works: bool := *;
        v := RetainFinalizer(works);
        return;
      }
      var authorized: bool := *;  // Machine gone, hosts unbound and unapproved
      if !demandAbsent || !authorized {
        v := Err(true);
        env.adverse := true;
        ShrinksOn();
        return;
      }
      v := RunCleanup();
    }

    // ---------- provision ----------

    method NoteMAC()
      requires Legal() && InProvision() && Port in status.ids
      modifies `status, `history
      ensures Continues(old(history), history)
      ensures Legal() && status == old(status).(macKnown := true)
    {
      ghost var before := AsWorker();
      status := status.(macKnown := true);
      RecordStep(before, RecordMAC);
    }

    method NoteAgent()
      requires Legal() && InProvision() && Server in status.ids
      modifies `status, `history
      ensures Continues(old(history), history)
      ensures Legal() && status == old(status).(agentKnown := true)
    {
      ghost var before := AsWorker();
      status := status.(agentKnown := true);
      RecordStep(before, RecordAgent);
    }

    /** A journal entry is resolved by lookup alone; a miss never leads to a second POST. */
    method RecoverPending(macReported: bool) returns (v: Verdict)
      requires Legal() && InProvision() && status.pendingCreate.Some? && status.pendingCreate.value !in status.ids
      modifies env, `status, `armed, `cloud, `world, `history
      ensures Continues(old(history), history)
      ensures (old(env.adverse) ==> env.adverse) && (v.Err? ==> env.adverse)
      ensures Legal() && CloudMoves(old(cloud), cloud)
      ensures !v.Ok? ==> status == old(status)
      ensures v.Ok? ==> old(status).pendingCreate.value in status.ids && status.pendingCreate == None
      ensures status.phase == old(status).phase || status.phase == Progress
      ensures v.Ok? ==>
                && status.ids.Keys == old(status).ids.Keys + {old(status).pendingCreate.value}
                && (old(status).macKnown ==> status.macKnown)
                && (old(status).pendingCreate == Some(Port) && macReported ==> status.macKnown)
    {
      hide Legal, Continues;
      ContinuesOn();
      var k := status.pendingCreate.value;
      var works: bool := *;
      var found := Find(k, works);
      if !found.Hit? {
        v := Err(true);
        env.adverse := true;
        return;
      }
      RecordResource(k, found.id);
      if k == Port && macReported {
        NoteMAC();
      }
      SetPhaseLabel(Progress);
      v := Ok;
    }

    /** An existing server is only observed: no resource is requested and no image is touched. */
    method ObserveServer(o: Observation, agentFound: bool) returns (v: Verdict)
      requires Legal() && InProvision() && Server in status.ids
      modifies env, `status, `cloud, `world, `history
      ensures Continues(old(history), history)
      ensures (old(env.adverse) ==> env.adverse) && (v.Err? ==> env.adverse)
      ensures Legal() && CloudMoves(old(cloud), cloud)
      ensures status.phase == old(status).phase || status.phase == Progress
      ensures status == old(status).(phase := status.phase, agentKnown := status.agentKnown)
      ensures v.Ok? && o.settled && agentFound ==> status.agentKnown
    {
      hide Legal, Continues;
      ContinuesOn();
      var works: bool := *;
      v := Get(Server, works);
      if !v.Ok? {
        return;
      }
      if o.failed {
        v := Err(false);
        env.adverse := true;
        return;
      }
      if o.settled && agentFound {
        NoteAgent();
      }
      SetPhaseLabel(Progress);
    }

    /** Any status that was stored is the old one or carries the image identity in memory. */
    ghost predicate ImageCheckpointed() reads this {
      && (status.cacheName.Some? ==> stored.cacheName == status.cacheName)
      && (status.imageID.Some? ==> status.cacheName.Some? && stored.imageID == status.imageID)
    }

    method EnsureNetwork(macReported: bool) returns (v: Verdict)
      requires Legal() && InProvision() && JournalFollowed() && status.pendingCreate == None
      modifies env, `status, `stored, `armed, `cloud, `world, `history
      ensures Continues(old(history), history)
      ensures (old(env.adverse) ==> env.adverse) && (v.Err? ==> env.adverse)
      ensures Legal() && status.phase == Progress && (v.Ok? ==> Port in status.ids)
      ensures CreatedOnly(old(cloud), cloud, {Port})
      ensures v.Ok? ==> status.pendingCreate == None && (macReported ==> status.macKnown)
    {
      hide Legal, Continues;
      ContinuesOn();
      SetPhaseLabel(Progress);
      v := EnsureResource(Port);
      if !v.Ok? {
        return;
      }
      if macReported {
        NoteMAC();
      }
    }

    /** The OS volume, until it is available and bootable. */
    method EnsureOSVolume(o: Observation) returns (v: Verdict, usable: bool)
      requires Legal() && InProvision() && JournalFollowed() && status.pendingCreate == None
      requires Port in status.ids && status.macKnown && ImageCheckpointed()
      modifies env, `status, `stored, `armed, `cloud, `world, `history
      ensures Continues(old(history), history)
      ensures (old(env.adverse) ==> env.adverse) && (v.Err? ==> env.adverse)
      ensures Legal() && status.phase == Progress && (v.Ok? ==> OSVolume in status.ids)
      ensures CreatedOnly(old(cloud), cloud, {OSVolume})
      ensures v.Ok? && o.settled && o.bootable ==> usable
      ensures usable ==>
                && v.Ok? && JournalFollowed() && status.pendingCreate == None && ImageCheckpointed()
                && Port in status.ids && status.macKnown && OSVolume in status.ids
    {
      hide Legal, Continues;
      ContinuesOn();
      SetPhaseLabel(Progress);
      usable := false;
      v := EnsureResource(OSVolume);
      if !v.Ok? {
        return;
      }
      if o.failed {
        v := Err(false);
        env.adverse := true;
        return;
      }
      usable := o.settled && o.bootable;
    }

    /** The discovery volume from the active image, until it is available. */
    method EnsureDiscoveryVolume(o: Observation) returns (v: Verdict, usable: bool)
      requires Legal() && InProvision() && JournalFollowed() && status.pendingCreate == None
      requires Prerequisites(status, DiscoveryVolume) && ready == status.imageID
      modifies env, `status, `stored, `armed, `cloud, `world, `history
      ensures Continues(old(history), history)
      ensures (old(env.adverse) ==> env.adverse) && (v.Err? ==> env.adverse)
      ensures Legal() && status.phase == Progress && CreatedOnly(old(cloud), cloud, {DiscoveryVolume})
      ensures v.Ok? ==> DiscoveryVolume in status.ids && OSVolume in status.ids
      ensures v.Ok? && o.settled ==> usable
      ensures usable ==>
                v.Ok? && status.pendingCreate == None && Prerequisites(status, Server) && ready == status.imageID
    {
      hide Legal, Continues;
      ContinuesOn();
      SetPhaseLabel(Progress);
      usable := false;
      v := EnsureResource(DiscoveryVolume);
      if !v.Ok? {
        return;
      }
      if o.failed {
        v := Err(false);
        env.adverse := true;
        return;
      }
      usable := o.settled;
    }

    /** Both volume IDs are stored, then the server is created. */
    method StoreAndCreateServer(server: Observation) returns (v: Verdict)
      requires Legal() && InProvision() && status.pendingCreate == None
      requires Prerequisites(status, Server) && ready == status.imageID
      modifies env, `status, `stored, `armed, `cloud, `world, `history
      ensures Continues(old(history), history)
      ensures (old(env.adverse) ==> env.adverse) && (v.Err? ==> env.adverse)
      ensures Legal() && (status.phase == old(status.phase) || status.phase == Progress)
      ensures v.Ok? ==> Server in status.ids && old(status).ids.Keys <= status.ids.Keys && status.phase == Progress
      ensures CreatedOnly(old(cloud), cloud, {Server})
    {
      hide Legal, Continues;
      ContinuesOn();
      var ok: bool := *;
      WriteStatus(ok);
      if !ok {
        v := Err(true);
        return;
      }
      SetPhaseLabel(Progress);
      v := EnsureResource(Server);
      if v.Ok? && server.failed {
        v := Err(false);
        env.adverse := true;
      }
    }

    /** The discovery volume, then both IDs stored, then the server. */
    method EnsureInstance(volume: Observation, server: Observation) returns (v: Verdict)
      requires Legal() && InProvision() && JournalFollowed() && status.pendingCreate == None
      requires Prerequisites(status, DiscoveryVolume) && ready == status.imageID
      modifies env, `status, `stored, `armed, `cloud, `world, `history
      ensures Continues(old(history), history)
      ensures (old(env.adverse) ==> env.adverse) && (v.Err? ==> env.adverse)
      ensures Legal() && status.phase == Progress
      ensures v.Ok? ==> DiscoveryVolume in status.ids && OSVolume in status.ids
      ensures v.Ok? && volume.settled ==> Server in status.ids
      ensures CreatedOnly(old(cloud), cloud, {DiscoveryVolume, Server})
    {
      hide Legal, Continues, CreatedOnly;
      ContinuesOn();
      ghost var start := cloud;
      var usable;
      v, usable := EnsureDiscoveryVolume(volume);
      ghost var mid := cloud;
      if usable {
        v := StoreAndCreateServer(server);
        CreatedBoth(start, mid, cloud, {DiscoveryVolume}, {Server});
      } else {
        CreatedLess(start, mid, {DiscoveryVolume}, {DiscoveryVolume, Server});
      }
      assert {DiscoveryVolume} + {Server} == {DiscoveryVolume, Server};
    }

    /** What a status read from the API server is known to look like. */
    lemma StoredShape()
      requires Legal()
      ensures StatusOK(stored)
    {
      NowInvariant();
      assert LocalInv(Now().workers[w]);
    }

    method Provision(seen: Sightings) returns (v: Verdict)
      requires Legal() && running && !cleanup && !released && holding == None && snapshot == None && stored == status
      modifies env, `status, `stored, `armed, `snapshot, `view, `holding, `ready, `imageAbsent, `released, `cloud,
               `world, `history
      ensures Continues(old(history), history)
      ensures (old(env.adverse) ==> env.adverse) && (v.Err? ==> env.adverse)
      ensures Legal()
      ensures old(status).pendingCreate.Some? ==> |cloud| == |old(cloud)|
      ensures old(status).pendingCreate.Some? && v.Ok? ==>
                old(status).pendingCreate.value in status.ids && status.pendingCreate == None
      ensures Server in old(status).ids ==> |cloud| == |old(cloud)|
      ensures old(status).phase == RefreshingDiscoveryImage ==> status == old(status) || status == Cleared(old(status))
      ensures old(status).phase != RefreshingDiscoveryImage && v.Ok? && NothingToWaitFor(seen) &&
              Favourable(history, |old(history.log)|, w) ==>
                && status.phase != RefreshingDiscoveryImage
                && (PassesLeft(status) == 0 || PassesLeft(status) < PassesLeft(old(status)))
      ensures (&& Server in old(status).ids && old(status).pendingCreate == None && v.Ok?
               && old(status).phase != RefreshingDiscoveryImage && seen.server.settled && seen.agentFound) ==>
                status.agentKnown
    {
      hide Legal, Continues;
      ContinuesOn();
      StoredShape();
      if status.phase == RefreshingDiscoveryImage {
        v := RefreshDiscoveryImage();
      } else if status.pendingCreate.Some? {
        v := RecoverPending(seen.macReported);
      } else if Server in status.ids {
        v := ObserveServer(seen.server, seen.agentFound);
      } else if Port !in status.ids || !status.macKnown {
        v := EnsureNetwork(seen.macReported);
      } else {
        v := BuildServer(seen);
      }
    }

    method BuildServer(seen: Sightings) returns (v: Verdict)
      requires Legal() && InProvision() && JournalFollowed() && status.pendingCreate == None
      requires Port in status.ids && status.macKnown && ImageCheckpointed() && snapshot == None
      modifies env, `status, `stored, `armed, `snapshot, `view, `holding, `ready, `cloud, `world, `history
      ensures Continues(old(history), history)
      ensures (old(env.adverse) ==> env.adverse) && (v.Err? ==> env.adverse)
      ensures Legal() && (v.Ok? ==> OSVolume in status.ids)
      ensures CreatedOnly(old(cloud), cloud, {OSVolume, DiscoveryVolume, Server})
      ensures v.Ok? && NothingToWaitFor(seen) && Favourable(history, |old(history.log)|, w) ==>
                Server in status.ids && status.phase == Progress
    {
      hide Legal, Continues, CreatedOnly, Favourable;
      ContinuesOn();
      ghost var start := cloud;
      var usable;
      v, usable := EnsureOSVolume(seen.osVolume);
      if !usable {
        CreatedLess(start, cloud, {OSVolume}, {OSVolume, DiscoveryVolume, Server});
        return;
      }
      ghost var mid, n := cloud, |history.log|;
      v := BuildFromVolume(seen);
      CreatedBoth(start, mid, cloud, {OSVolume}, {DiscoveryVolume, Server});
      assert {OSVolume} + {DiscoveryVolume, Server} == {OSVolume, DiscoveryVolume, Server};
      FavourableWithin(history, n, history, |old(history.log)|, w);
    }

    /** With a usable OS volume: the image, then the instance. */
    method BuildFromVolume(seen: Sightings) returns (v: Verdict)
      requires Legal() && InProvision() && JournalFollowed() && status.pendingCreate == None
      requires BlankMachine(status) && ImageCheckpointed() && snapshot == None
      modifies env, `status, `stored, `armed, `snapshot, `view, `holding, `ready, `cloud, `world, `history
      ensures Continues(old(history), history)
      ensures (old(env.adverse) ==> env.adverse) && (v.Err? ==> env.adverse)
      ensures Legal() && (v.Ok? ==> OSVolume in status.ids)
      ensures CreatedOnly(old(cloud), cloud, {DiscoveryVolume, Server})
      ensures v.Ok? && seen.discoveryVolume.settled && Favourable(history, |old(history.log)|, w) ==>
                Server in status.ids && status.phase == Progress
    {
      hide Legal, Continues, CreatedOnly, CloudMoves, Favourable;
      ContinuesOn();
      ghost var start := cloud;
      SetPhaseLabel(Progress);
      ghost var n := |history.log|;
      var usable;
      v, usable := PrepareDiscoveryImage(seen.imageQueued);
      ghost var h, mid := history, cloud;
      NothingCreated(start, mid);
      if usable {
        v := EnsureInstance(seen.discoveryVolume, seen.server);
        CreatedBoth(start, mid, cloud, {}, {DiscoveryVolume, Server});
      } else {
        CreatedLess(start, mid, {}, {DiscoveryVolume, Server});
      }
      assert {} + {DiscoveryVolume, Server} == {DiscoveryVolume, Server};
      FavourableWithin(h, n, history, |old(history.log)|, w);
    }

    // ---------- Reconcile ----------

    /** A worker of a reachable cluster that no reconcile is working on. */
    constructor (uid: WorkerUid, past: Trace)
      requires History(past.states, past.log)
      requires uid in past.states[|past.log|].workers && past.states[|past.log|].workers[uid].mem.None?
      ensures Legal() && w == uid && !running && Now() == past.states[|past.log|]
    {
      var now := past.states[|past.log|];
      var wk := now.workers[uid];
      w, policy := uid, wk.policy;
      stored, finalizer, running := wk.status, wk.finalizer, false;
      status, cleanup, demandAbsent, armed, absent := wk.status, false, false, None, {};
      snapshot, view, holding, ready, imageAbsent, released := None, Unread, None, None, None, false;
      cloud := wk.cloud;
      world := World(wk.deleting, wk.demand, now.workers, now.caches, now.present, now.images);
      history := past;
      env := new Answers;
      new;
      assert now.workers[w := wk] == now.workers;
    }

    method PutFinalizer(works: bool) returns (v: Verdict)
      requires Legal() && !running && finalizer == Never
      modifies env, `finalizer, `cloud, `world, `history
      ensures Continues(old(history), history)
      ensures Legal() && (v.Ok? ==> finalizer == Held || world.deleting) && (v.Err? ==> env.adverse) &&
              (v.Ok? <==> works)
    {
      hide Continues;
      ContinuesOn();
      Interfere();
      var lands: bool := *;
      v := if works then Ok else Err(true);
      env.adverse := v.Err?;
      if (works || lands) && !world.deleting {
        ghost var before := AsWorker();
        finalizer := Held;
        RecordStep(before, AddFinalizer);
      }
    }

    /** No download, held cache or finished release is carried over from an earlier reconcile. */
    method ForgetImage()
      requires Legal() && !running
      modifies `snapshot, `view, `holding, `ready, `imageAbsent, `released
      ensures Legal() && snapshot == None && view == Unread && holding == None && ready == None &&
              imageAbsent == None && !released
    {
      hide History;
      snapshot, view, holding, ready, imageAbsent, released := None, Unread, None, None, None, false;
    }

    /** Nothing from an earlier reconcile is left in process memory. */
    method ForgetMemory()
      requires Legal() && !running
      modifies `status, `cleanup, `demandAbsent, `armed, `absent, `snapshot, `view, `holding, `ready,
               `imageAbsent, `released
      ensures Legal() && Mem() == FreshMemory(stored, world.deleting)
    {
      hide History;
      ForgetImage();
      status, cleanup, demandAbsent, armed, absent := stored, world.deleting, false, None, {};
    }

    /** Reads the object: everything the reconcile knows starts from the stored status. */
    method Begin()
      requires Legal() && !running && finalizer == Held
      modifies `running, `status, `cleanup, `demandAbsent, `armed, `absent, `snapshot, `view, `holding, `ready,
               `imageAbsent, `released, `history
      ensures Continues(old(history), history)
      ensures Legal() && running && Mem() == FreshMemory(stored, world.deleting) && Todo() == old(Todo())
    {
      hide History, Continues;
      ContinuesOn();
      ForgetMemory();
      ghost var before := AsWorker();
      running := true;
      RecordStep(before, Start);
    }

    /** The end of a reconcile, or a crash: process memory is lost. */
    method End()
      requires Legal() && running
      modifies `running, `history
      ensures Continues(old(history), history)
      ensures Legal() && !running
    {
      ghost var before := AsWorker();
      running := false;
      RecordStep(before, Stop);
    }

    /** demandPresent, through the uncached reader. */
    method CheckDemand()
      requires Legal() && running && !demandAbsent
      modifies `demandAbsent, `cloud, `world, `history
      ensures Continues(old(history), history)
      ensures Legal() && CloudMoves(old(cloud), cloud) && (world.demand ==> old(world.demand))
      ensures demandAbsent <==> !world.demand
      ensures Shrinks(old(Todo()), Todo())
    {
      hide Continues, Shrinks;
      ContinuesOn();
      Interfere();
      if !world.demand {
        ghost var before := AsWorker();
        demandAbsent := true;
        RecordStep(before, ObserveDemandAbsent);
      }
    }

    method DeleteObject(works: bool) returns (v: Verdict)
      requires Legal() && running
      modifies env, `cloud, `world, `history
      ensures Continues(old(history), history)
      ensures Legal() && (v.Ok? ==> world.deleting) && (v.Ok? <==> works)
      ensures (old(env.adverse) ==> env.adverse) && (v.Err? ==> env.adverse)
    {
      hide Continues, Shrinks, History;
      ContinuesOn();
      Interfere();
      var lands: bool := *;
      v := if works then Ok else Err(true);
      env.adverse := env.adverse || v.Err?;
      if works || lands {
        ghost var before := Now();
        ghost var wk := AsWorker();
        world := world.(deleting := true);
        assert world.others[w := wk][w := AsWorker()] == world.others[w := AsWorker()];
        Record(before, Local(w, MarkDeleting));
      }
    }

    /** A durable refresh journal is never overwritten by a failure label. */
    method ReportError(v: Verdict, works: bool)
      requires Legal() && running && v.Err?
      modifies env, `status, `stored, `armed, `cloud, `world, `history
      ensures Continues(old(history), history)
      ensures (old(env.adverse) ==> env.adverse)
      ensures Legal() && (stored == status || stored == old(stored)) && Shrinks(old(Todo()), Todo())
      ensures works ==> stored == status
      ensures status
              == old(status).(phase := if v.retryable || old(status).phase == RefreshingDiscoveryImage
                  then old(status).phase else Failed)
    {
      hide Legal, Continues;
      ContinuesOn();
      if !v.retryable && status.phase != RefreshingDiscoveryImage {
        SetPhaseLabel(Failed);
      }
      WriteStatus(works);
    }

    lemma CleanupMeansDeleting()
      requires Legal() && running && cleanup
      ensures world.deleting
    {
      NowInvariant();
      assert LocalInv(Now().workers[w]);
    }

    lemma EffectiveNow()
      requires DeletesTookEffect(Now(), w)
      ensures ResourcesWent(cloud) && ImageWent(Todo())
    {
      assert WorkOf(Now(), w) == Todo();
    }

    /** Cleanup with a provider, measured by the work that is left. */
    method AttemptCleanup() returns (v: Verdict)
      requires Legal() && running && cleanup && finalizer == Held && absent == {} && !released && !policy.retainAll
      modifies env, `status, `absent, `view, `imageAbsent, `released, `finalizer, `cloud, `world, `history
      ensures Continues(old(history), history)
      ensures (old(env.adverse) ==> env.adverse) && (v.Err? ==> env.adverse)
      ensures Legal() && (finalizer == Held || finalizer == Removed)
      ensures status.imageID == old(status.imageID) && status.cacheName == old(status.cacheName)
      ensures Worked(old(Todo()), Todo(), finalizer == Removed,
                     v.Ok? && NameSettled(old(status)) && EffectiveFrom(history, |old(history.log)|, w))
    {
      hide Legal, Shrinks, UnaskedResources, ImageStage, ImageWent, ResourcesWent, EffectiveFrom, DeletesTookEffect;
      v := Err(false);
      var providerReady: bool := *;
      env.adverse := env.adverse || !providerReady;
      if providerReady {
        ghost var before := Now();
        ghost var start := Todo();
        ghost var n := |history.log|;
        if DeletesTookEffect(before, w) {
          EffectiveNow();
        }
        v := Cleanup();
        ShrinksMeans(start, Todo());
        if EffectiveFrom(history, n, w) {
          EffectiveAt(history, history, n, w);
        }
      }
    }

    /** The object is being deleted: the provider is set up, cleanup runs, and its outcome is reported. */
    method ReconcileDeletion() returns (v: Verdict)
      requires Legal() && running && cleanup && status == stored && finalizer == Held && absent == {} && !released
      modifies env, `status, `stored, `armed, `absent, `view, `imageAbsent, `released, `finalizer, `cloud,
               `world, `history
      ensures Continues(old(history), history)
      ensures (old(env.adverse) ==> env.adverse) && (v.Err? ==> env.adverse)
      ensures Legal() && world.deleting && (!policy.retainAll ==> finalizer == Held || finalizer == Removed)
      ensures policy.retainAll && v.Ok? ==> finalizer == Retained
      ensures stored.imageID == status.imageID == old(stored).imageID && stored.cacheName == old(stored).cacheName
      ensures !policy.retainAll ==>
                Worked(old(Todo()), Todo(), finalizer == Removed,
                       v.Ok? && NameSettled(old(stored)) && EffectiveFrom(history, |old(history.log)|, w))
    {
      hide Legal, Continues, Shrinks, EffectiveFrom, Worked;
      ContinuesOn();
      ShrinksOn();
      if policy.retainAll {
        var works: bool := *;
        v := RetainFinalizer(works);
      } else {
        ghost var start := Todo();
        ghost var n := |history.log|;
        v := AttemptCleanup();
        ghost var mid := Todo();
        ghost var h := history;
        ghost var fine := v.Ok?;
        v := Report(v);
        if EffectiveFrom(history, n, w) {
          EffectiveBefore(h, n, history, n, w);
        }
        WorkedBetween(start, start, mid, Todo(), finalizer == Removed,
                      fine && NameSettled(old(stored)) && EffectiveFrom(h, n, w),
                      v.Ok? && NameSettled(old(stored)) && EffectiveFrom(history, n, w));
      }
      CleanupMeansDeleting();
    }

    /** Stores the outcome of a reconcile, unless the finalizer is gone. */
    method Report(v0: Verdict) returns (v: Verdict)
      requires Legal() && running
      modifies env, `status, `stored, `armed, `cloud, `world, `history
      ensures Continues(old(history), history)
      ensures (old(env.adverse) ==> env.adverse)
      ensures Legal() && (stored == status || stored == old(stored)) && Shrinks(old(Todo()), Todo())
      ensures status == old(status).(phase := status.phase)
      ensures (v.Ok? ==> v0.Ok? && status == old(status) && (finalizer == Held ==> stored == status)) &&
              (v.Err? && v0.Ok? ==> env.adverse)
    {
      hide Legal, Continues, Shrinks;
      ShrinksOn();
      ContinuesOn();
      v := v0;
      var ok: bool := *;
      if v.Err? {
        ReportError(v, ok);
      } else if finalizer == Held {
        WriteStatus(ok);
        v := if ok then Ok else Err(true);
      }
    }

    /** The object is not being deleted: without demand it is deleted, otherwise the worker is built. */
    method ReconcileDemand(seen: Sightings) returns (v: Verdict)
      requires Legal() && running && !cleanup && status == stored && finalizer == Held
      requires absent == {} && snapshot == None && holding == None && !released && (demandAbsent ==> !world.demand)
      modifies this, env
      ensures Continues(old(history), history)
      ensures (old(env.adverse) ==> env.adverse) && (v.Err? ==> env.adverse)
      ensures Legal() && running && finalizer == Held && (old(demandAbsent) && v.Ok? ==> world.deleting)
      ensures (&& v.Ok? && old(stored).phase != RefreshingDiscoveryImage && NothingToWaitFor(seen)
               && Favourable(history, |old(history.log)|, w)) ==> Closer(old(stored), stored)
    {
      hide Legal, Continues, Favourable;
      ContinuesOn();
      v := Ok;
      ghost var n := |history.log|;
      ghost var h := history;
      if demandAbsent {
        if Favourable(h, n, w) {
          FairNow(n);
        }
        var works: bool := *;
        v := DeleteObject(works);
        FavourableWithin(h, n, history, n, w);
        return;
      }
      if seen.demandDeleting {
        return;
      }
      var providerReady: bool := *;
      env.adverse := env.adverse || !providerReady;
      v := Err(false);
      if providerReady {
        v := Provision(seen);
      }
      h := history;
      v := Report(v);
      FavourableWithin(h, n, history, n, w);
    }

    /** Reads the object and goes the way its deletion timestamp says. */
    method ReconcileHeld(seen: Sightings) returns (v: Verdict)
      requires Legal() && !running && finalizer == Held
      modifies this, env
      ensures Continues(old(history), history)
      ensures Legal() && running && (v.Err? ==> env.adverse)
      ensures old(!world.demand && !world.deleting) && v.Ok? ==> world.deleting
      ensures old(world.deleting) && policy.retainAll && v.Ok? ==> finalizer == Retained
      ensures (&& v.Ok? && old(stored).phase != RefreshingDiscoveryImage && NothingToWaitFor(seen)
               && Favourable(history, |old(history.log)|, w)) ==> finalizer == Held && Closer(old(stored), stored)
      ensures old(world.deleting) && !policy.retainAll ==>
                && world.deleting && (finalizer == Held || finalizer == Removed)
                && stored.imageID == status.imageID == old(stored).imageID
                && stored.cacheName == old(stored).cacheName
                && Worked(old(Todo()), Todo(), finalizer == Removed,
                       v.Ok? && NameSettled(old(stored)) && EffectiveFrom(history, |old(history.log)|, w))
    {
      hide Legal, Continues, Shrinks, EffectiveFrom, Worked, Favourable, Closer, CloudMoves, NothingToWaitFor,
           NameSettled;
      ContinuesOn();
      ShrinksOn();
      ghost var start := Todo();
      ghost var n := |history.log|;
      env.adverse := false;
      ghost var h := history;
      if world.deleting && Favourable(h, n, w) {
        FairNow(n);
      }
      Begin();
      CheckDemand();
      ghost var next := Todo();
      ghost var m := |history.log|;
      if cleanup {
        v := ReconcileDeletion();
        FavourableWithin(h, n, history, n, w);
        if !policy.retainAll {
          if EffectiveFrom(history, n, w) {
            EffectiveBefore(history, m, history, n, w);
          }
          WorkedBetween(start, next, Todo(), Todo(), finalizer == Removed,
                        v.Ok? && NameSettled(old(stored)) && EffectiveFrom(history, m, w),
                        v.Ok? && NameSettled(old(stored)) && EffectiveFrom(history, n, w));
        }
      } else {
        v := ReconcileDemand(seen);
        FavourableWithin(history, m, history, n, w);
      }
    }

    /** One reconcile from read to return: whatever happens, the history stays a legal run. */
    method Reconcile(seen: Sightings) returns (v: Verdict)
      requires Legal() && !running
      modifies this, env
      ensures Continues(old(history), history)
      ensures Legal() && !running && (v.Err? ==> env.adverse)
      ensures old(finalizer == Held && !world.demand && !world.deleting) && v.Ok? ==> world.deleting
      ensures old(finalizer) == Never && v.Ok? ==> finalizer == Held || world.deleting
      ensures old(finalizer == Held && world.deleting) && policy.retainAll && v.Ok? ==> finalizer == Retained
      ensures old(finalizer) == Removed || old(finalizer) == Retained ==>
                finalizer == old(finalizer) && history == old(history)
      ensures (&& old(finalizer) == Held && v.Ok? && old(stored).phase != RefreshingDiscoveryImage
               && NothingToWaitFor(seen) && Favourable(history, |old(history.log)|, w)) ==>
                finalizer == Held && Closer(old(stored), stored)
      ensures old(finalizer) == Held && old(world.deleting) && !policy.retainAll ==>
                && world.deleting && (finalizer == Held || finalizer == Removed)
                && stored.imageID == old(stored).imageID && stored.cacheName == old(stored).cacheName
                && Worked(old(Todo()), Todo(), finalizer == Removed,
                       v.Ok? && NameSettled(old(stored)) && EffectiveFrom(history, |old(history.log)|, w))
    {
      hide Legal, Continues, EffectiveFrom, Worked, Favourable, Closer;
      ContinuesOn();
      v := Ok;
      if finalizer == Never {
        var works: bool := *;
        v := PutFinalizer(works);
      } else if finalizer == Held {
        ghost var start := Todo();
        ghost var n := |history.log|;
        v := ReconcileHeld(seen);
        ghost var left := Todo();
        ghost var h := history;
        End();
        FavourableWithin(h, n, history, n, w);
        if EffectiveFrom(history, n, w) {
          EffectiveBefore(h, n, history, n, w);
        }
        if old(world.deleting) && !policy.retainAll {
          assert Todo() == left;
          ShrinksOn();
          WorkedBetween(start, start, left, left, finalizer == Removed,
                        v.Ok? && NameSettled(old(stored)) && EffectiveFrom(h, n, w),
                        v.Ok? && NameSettled(old(stored)) && EffectiveFrom(history, n, w));
        }
      }
    }

    /**
     * Reconciles until a server is recorded or an error is reported, with anybody acting before every
     * call. As long as demand exists, the image is active and there is nothing to wait for, every
     * error-free reconcile gets closer: three of them are always enough.
     */
    method ReconcileUntilBuilt(sights: seq<Sightings>) returns (verdicts: seq<Verdict>)
      requires Legal() && !running && finalizer == Held && stored.phase != RefreshingDiscoveryImage
      modifies this, env
      ensures Continues(old(history), history)
      ensures Legal() && !running && |verdicts| <= |sights|
      ensures (&& (forall i :: 0 <= i < |sights| ==> NothingToWaitFor(sights[i]))
               && (forall i :: 0 <= i < |verdicts| ==> verdicts[i].Ok?)
               && Favourable(history, |old(history.log)|, w)) ==>
                && |verdicts| + PassesLeft(stored) <= PassesLeft(old(stored)) <= 3
                && (Server in stored.ids || |verdicts| == |sights| < 3)
    {
      hide Legal, Continues, Favourable, Worked, EffectiveFrom;
      ContinuesOn();
      ghost var n := |history.log|;
      verdicts := [];
      while |verdicts| < |sights| && finalizer == Held && Server !in stored.ids &&
            (verdicts == [] || verdicts[|verdicts| - 1].Ok?)
        invariant Legal() && !running && |verdicts| <= |sights| && Continues(old(history), history)
        invariant (&& (forall i :: 0 <= i < |sights| ==> NothingToWaitFor(sights[i]))
                   && (forall i :: 0 <= i < |verdicts| ==> verdicts[i].Ok?)
                   && Favourable(history, n, w)) ==>
                    && finalizer == Held && stored.phase != RefreshingDiscoveryImage
                    && |verdicts| + PassesLeft(stored) <= PassesLeft(old(stored))
      {
        ghost var h := history;
        Interfere();
        FavourableWithin(h, n, history, n, w);
        ghost var m := |history.log|;
        h := history;
        var v := Reconcile(sights[|verdicts|]);
        FavourableWithin(h, n, history, n, w);
        FavourableWithin(history, m, history, n, w);
        ghost var before := verdicts;
        verdicts := verdicts + [v];
        assert verdicts[|before|] == v && forall i :: 0 <= i < |before| ==> verdicts[i] == before[i];
      }
    }

    /**
     * Reconciles until the finalizer is gone, at most the given number of times, with anybody
     * acting before every call. If every cleanup begins after the deletes asked for before have
     * taken effect, each error-free reconcile takes something off the work that was left at first,
     * so that no more than seven of them are needed.
     */
    method ReconcileRepeatedly(rounds: nat) returns (verdicts: seq<Verdict>)
      requires Legal() && !running && finalizer == Held && world.deleting && !policy.retainAll && NameSettled(stored)
      modifies this, env
      ensures Continues(old(history), history)
      ensures Legal() && !running
      ensures finalizer == Removed || (finalizer == Held && |verdicts| == rounds)
      ensures EffectiveFrom(history, |old(history.log)|, w) && finalizer == Held ==>
                ErrorFree(verdicts) + WorkLeft(Todo()) <= WorkLeft(old(Todo())) <= 7
    {
      hide Legal, Shrinks, EffectiveFrom, UnaskedResources, ImageStage;
      ContinuesOn();
      ghost var start := history;
      verdicts := [];
      while |verdicts| < rounds && finalizer == Held
        invariant Legal() && !running && Continues(start, history)
        invariant finalizer == Removed || (finalizer == Held && |verdicts| <= rounds)
        invariant world.deleting && NameSettled(stored)
        invariant EffectiveFrom(history, |start.log|, w) && finalizer == Held ==>
                    ErrorFree(verdicts) + WorkLeft(Todo()) <= WorkLeft(old(Todo()))
      {
        ghost var left := Todo();
        ghost var h := history;
        Interfere();
        ShrinksMeans(left, Todo());
        ghost var n := |history.log|;
        var seen: Sightings := *;
        var v := Reconcile(seen);
        if EffectiveFrom(history, |start.log|, w) {
          EffectiveBefore(h, |start.log|, history, |start.log|, w);
          EffectiveBefore(history, n, history, |start.log|, w);
        }
        assert (verdicts + [v])[..|verdicts|] == verdicts;
        verdicts := verdicts + [v];
      }
    }
  }
}
