/**
 * Cleanup terminates. One cleanup reconcile without failing calls is a fixed sequence of
 * protocol actions; it removes the finalizer or lowers a measure that starts at seven at most
 * and that nobody else can raise.
 */
module OpenStackCleanup {
  import opened Common
  import opened OpenStackTypes
  import opened OpenStackWorker
  import opened OpenStackCache
  import opened OpenStackLinks
  import opened OpenStackRuns

  // ---------- One cleanup reconcile ----------

  function DeletionOrder(policy: Policy): (order: seq<Kind>) {
    if policy.retainOSVolume then [Server, DiscoveryVolume, Port] else [Server, DiscoveryVolume, OSVolume, Port]
  }

  /** The resource of kind k that still exists. */
  function FindLive(cloud: seq<Resource>, k: Kind): (r: Option<nat>)
    ensures r.Some? ==> r.value < |cloud| && cloud[r.value].kind == k && !cloud[r.value].gone
    ensures r.None? ==> AllGone(cloud, {k})
  {
    if cloud == [] then None
    else
      var i := |cloud| - 1;
      if cloud[i].kind == k && !cloud[i].gone then Some(i) else FindLive(cloud[..i], k)
  }

  /** End of a reconcile that returned without an error. */
  function Return(w: WorkerUid): seq<Action> {
    [Local(w, StatusWritten), Local(w, Stop)]
  }

  /** From the n-th kind on: delete the first resource that still exists, or go on to the image. */
  function DeletionLog(s: State, w: WorkerUid, n: nat): seq<Action>
    requires w in s.workers && n <= |DeletionOrder(s.workers[w].policy)|
    decreases |DeletionOrder(s.workers[w].policy)| - n
  {
    var wk := s.workers[w];
    if n == |DeletionOrder(wk.policy)| then ReleaseLog(s, w)
    else
      var k := DeletionOrder(wk.policy)[n];
      var live := FindLive(wk.cloud, k);
      if live.Some? then
        [Local(w, RequestDelete(k, live.value))] + Return(w) + [Local(w, Vanishes(live.value))]
      else
        [Local(w, if k in wk.status.ids then GotNoResource(k) else FoundNoResource(k))] + DeletionLog(s, w, n + 1)
  }

  function Finish(w: WorkerUid): seq<Action> {
    [Local(w, RemoveFinalizer), Local(w, Stop)]
  }

  /** releaseDiscoveryImage, then the finalizer if it reported done. */
  function ReleaseLog(s: State, w: WorkerUid): seq<Action>
    requires w in s.workers
  {
    var st := s.workers[w].status;
    if st.cacheName == None then [FinishRelease(w)] + Finish(w)
    else
      [ReadCache(w)] +
      match ReadName(s, st.cacheName.value)
      case Unread => []
      case Missing => [FinishRelease(w)] + Finish(w)
      case Seen(u, _, active, refs) =>
        if st.imageID.Some? && st.imageID.value != u then [FinishRelease(w)] + Finish(w)
        else if active then [DropReference(w)] + (if refs - {w} == {} then Return(w) else Finish(w))
        else if ImageExists(s.images, u) then [DeleteImage(w)] + Return(w) + [ImageVanishes(u)]
        else [ObserveImageAbsent(w), DeleteCache(w)] + Finish(w)
  }

  /** A whole cleanup reconcile; a delete that it sends takes effect before the next one. */
  function CleanupLog(s: State, w: WorkerUid): seq<Action>
    requires w in s.workers
  {
    [Local(w, Start), Local(w, ObserveDemandAbsent), Local(w, BeginCleanup)] + DeletionLog(s, w, 0)
  }

  /** Deletion was requested, demand is gone, no create is unresolved, and no reconcile runs. */
  predicate Cleanable(wk: Worker) {
    && wk.deleting && !wk.demand && wk.mem == None && wk.finalizer == Held
    && !wk.policy.retainAll && wk.status.pendingCreate == None
  }

  // ---------- A pinned image belongs to the pinned cache name ----------

  ghost predicate Named(caches: Caches, st: Status) {
    st.imageID.Some? ==> st.imageID.value in caches && st.cacheName == Some(caches[st.imageID.value].key)
  }

  ghost predicate WorkerNamed(caches: Caches, wk: Worker) {
    Named(caches, wk.status) && (wk.mem.Some? ==> Named(caches, wk.mem.value.status))
  }

  ghost predicate AllNamed(s: State) {
    forall w :: w in s.workers ==> WorkerNamed(s.caches, s.workers[w])
  }

  /** A ConfigMap is never forgotten and never renamed. */
  lemma KeysNeverChange(s: State, a: Action)
    requires Enabled(s, a)
    ensures forall u :: u in s.caches ==> u in Next(s, a).caches && Next(s, a).caches[u].key == s.caches[u].key
  {}

  /** These actions leave the image identity in memory and in the stored status as it is, or copy it. */
  predicate LeavesIdentity(a: LocalAction) {
    !a.PinCacheName? && !a.PinImageID? && !a.ClearImageIdentity?
  }

  ghost predicate SameIdentity(wk: Worker, wk': Worker) {
    && (wk'.status == wk.status || (wk.mem.Some? && wk'.status == wk.mem.value.status))
    && (wk'.mem.Some? ==>
          || wk'.mem.value.status == wk.status
          || (wk.mem.Some? && wk'.mem.value.status.imageID == wk.mem.value.status.imageID
              && wk'.mem.value.status.cacheName == wk.mem.value.status.cacheName))
  }

  lemma IdentityUntouched(wk: Worker, a: LocalAction)
    requires LocalEnabled(wk, a) && LeavesIdentity(a)
    ensures SameIdentity(wk, LocalNext(wk, a))
  {
    if a.MarkDeleting? || a.DemandDisappears? || a.BecomesListed? || a.Vanishes? || a.AddFinalizer? ||
       a.Start? || a.Stop? {
      assert SameIdentity(wk, LocalNext(wk, a));
    } else if a.StatusWritten? || a.ObserveDemandAbsent? || a.SetPhase? || a.SetPending? || a.EnterRefresh? ||
              a.Download? {
      assert SameIdentity(wk, LocalNext(wk, a));
    } else if a.Post? || a.PostRejected? || a.RecordFound? || a.RecordMAC? || a.RecordAgent? {
      assert SameIdentity(wk, LocalNext(wk, a));
    }
  }

  lemma LocalStepKeepsNamed(caches: Caches, images: Images, w: WorkerUid, wk: Worker, a: LocalAction)
    requires LocalInv(wk) && Linked(caches, images, w, wk) && WorkerNamed(caches, wk) && LocalEnabled(wk, a)
    ensures WorkerNamed(caches, LocalNext(wk, a))
  {
    if LeavesIdentity(a) {
      hide LocalEnabled, LocalNext, LocalInv, Linked;
      IdentityUntouched(wk, a);
    } else {
      IdentityStepKeepsNamed(caches, images, w, wk, a);
    }
  }

  lemma IdentityStepKeepsNamed(caches: Caches, images: Images, w: WorkerUid, wk: Worker, a: LocalAction)
    requires LocalInv(wk) && Linked(caches, images, w, wk) && WorkerNamed(caches, wk) && LocalEnabled(wk, a) &&
             !LeavesIdentity(a)
    ensures WorkerNamed(caches, LocalNext(wk, a))
  {}

  lemma SharedStepKeepsStatuses(s: State, a: Action, w: WorkerUid)
    requires Enabled(s, a) && !a.Local? && w in Next(s, a).workers
    ensures a.AddWorker? && a.w == w ==> Next(s, a).workers[w] == NewWorker(a.policy)
    ensures !(a.AddWorker? && a.w == w) ==>
              && w in s.workers
              && Next(s, a).workers[w].status == s.workers[w].status
              && (Next(s, a).workers[w].mem.Some? ==>
                    s.workers[w].mem.Some? && Next(s, a).workers[w].mem.value.status == s.workers[w].mem.value.status)
  {}

  lemma StepKeepsNamed(s: State, a: Action)
    requires Inv(s) && AllNamed(s) && Enabled(s, a)
    ensures AllNamed(Next(s, a))
  {
    var s' := Next(s, a);
    KeysNeverChange(s, a);
    forall w | w in s'.workers ensures WorkerNamed(s'.caches, s'.workers[w]) {
      if a.Local? {
        assert s'.caches == s.caches;
        if a.w == w {
          LocalStepKeepsNamed(s.caches, s.images, w, s.workers[w], a.step);
        }
      } else {
        SharedStepKeepsStatuses(s, a, w);
      }
    }
  }

  ghost predicate CleanupInv(s: State) {
    Inv(s) && AllNamed(s)
  }

  lemma {:induction false} RunKeepsNamed(s: State, log: seq<Action>, s': State)
    requires CleanupInv(s) && Reaches(s, log, s')
    ensures CleanupInv(s')
    decreases |log|
  {
    hide Inv, AllNamed, Enabled, Next;
    if log != [] {
      StepKeepsInvariant(s, log[0]);
      StepKeepsNamed(s, log[0]);
      RunKeepsNamed(Next(s, log[0]), log[1..], s');
    }
  }

  lemma ReachableCleanupInv(s: State)
    requires Reachable(s)
    ensures CleanupInv(s)
  {
    var log :| Reaches(EMPTY, log, s);
    RunKeepsNamed(EMPTY, log, s);
  }

  // ---------- The measure ----------

  function Weight(cloud: seq<Resource>, k: Kind): nat {
    if FindLive(cloud, k).Some? then 1 else 0
  }

  /** How many of the resources that cleanup deletes still exist. */
  function Remaining(wk: Worker): nat {
    Weight(wk.cloud, Server) + Weight(wk.cloud, DiscoveryVolume) + Weight(wk.cloud, Port)
    + (if wk.policy.retainOSVolume then 0 else Weight(wk.cloud, OSVolume))
  }

  /** 3: still to be tombstoned. 2: the image is still to be deleted. 1: only bookkeeping is left. */
  function CacheStage(s: State, u: CacheUid): nat {
    if u in s.caches && s.caches[u].phase == Active then 3
    else if ImageExists(s.images, u) then 2
    else 1
  }

  function CollectionStage(s: State, st: Status): nat {
    if st.cacheName == None then 1
    else if st.imageID.Some? then CacheStage(s, st.imageID.value)
    else if st.cacheName.value in s.present then CacheStage(s, s.present[st.cacheName.value])
    else 1
  }

  function Measure(s: State, w: WorkerUid): (m: nat)
    requires w in s.workers
    ensures 1 <= m <= 7
  {
    Remaining(s.workers[w]) + CollectionStage(s, s.workers[w].status)
  }

  /** Cleanup is over, or it got closer. */
  ghost predicate Progressed(s: State, w: WorkerUid, t: State)
    requires w in s.workers
  {
    && w in t.workers
    && (|| t.workers[w].finalizer == Removed
        || (&& Cleanable(t.workers[w]) && t.workers[w].status == s.workers[w].status.(phase := Deleting)
            && Measure(t, w) < Measure(s, w)))
  }

  // ---------- The run of one cleanup reconcile ----------

  lemma RunCons(s: State, a: Action, log: seq<Action>, t: State)
    requires Enabled(s, a) && Reaches(Next(s, a), log, t)
    ensures Reaches(s, [a] + log, t)
  {}

  function CleanupMemory(wk: Worker, absent: set<Kind>): Memory {
    FreshMemory(wk.status.(phase := Deleting), true).(demandAbsent := true, absent := absent)
  }

  /** In the middle of a cleanup reconcile that began in state s. */
  function During(s: State, w: WorkerUid, m: Memory): State
    requires w in s.workers
  {
    WithWorker(s, w, WithMem(s.workers[w], m))
  }

  lemma NextLocal(s: State, w: WorkerUid, m: Memory, a: LocalAction, m': Memory)
    requires w in s.workers && LocalEnabled(WithMem(s.workers[w], m), a)
    requires LocalNext(WithMem(s.workers[w], m), a) == WithMem(s.workers[w], m')
    ensures Enabled(During(s, w, m), Local(w, a)) && Next(During(s, w, m), Local(w, a)) == During(s, w, m')
  {}

  lemma OpeningRuns(s: State, w: WorkerUid, log: seq<Action>, t: State)
    requires w in s.workers && Cleanable(s.workers[w])
    requires Reaches(During(s, w, CleanupMemory(s.workers[w], {})), log, t)
    ensures Reaches(s, [Local(w, Start), Local(w, ObserveDemandAbsent), Local(w, BeginCleanup)] + log, t)
  {
    hide Enabled, Next, LocalEnabled, LocalNext;
    var wk := s.workers[w];
    var m0 := FreshMemory(wk.status, true);
    var m1 := m0.(demandAbsent := true);
    assert Enabled(s, Local(w, Start)) && Next(s, Local(w, Start)) == During(s, w, m0) by { StartsWith(s, w); }
    ObserveAndBegin(s, w);
    RunCons(During(s, w, m1), Local(w, BeginCleanup), log, t);
    RunCons(During(s, w, m0), Local(w, ObserveDemandAbsent), [Local(w, BeginCleanup)] + log, t);
    RunCons(s, Local(w, Start), [Local(w, ObserveDemandAbsent)] + ([Local(w, BeginCleanup)] + log), t);
    assert [Local(w, Start)] + ([Local(w, ObserveDemandAbsent)] + ([Local(w, BeginCleanup)] + log))
        == [Local(w, Start), Local(w, ObserveDemandAbsent), Local(w, BeginCleanup)] + log;
  }

  lemma StartsWith(s: State, w: WorkerUid)
    requires w in s.workers && Cleanable(s.workers[w])
    ensures Enabled(s, Local(w, Start)) &&
            Next(s, Local(w, Start)) == During(s, w, FreshMemory(s.workers[w].status, true))
  {}

  lemma ObserveAndBegin(s: State, w: WorkerUid)
    requires w in s.workers && Cleanable(s.workers[w])
    ensures var m0 := FreshMemory(s.workers[w].status, true);
            var m1 := m0.(demandAbsent := true);
            && Enabled(During(s, w, m0), Local(w, ObserveDemandAbsent))
            && Next(During(s, w, m0), Local(w, ObserveDemandAbsent)) == During(s, w, m1)
            && Enabled(During(s, w, m1), Local(w, BeginCleanup))
            && Next(During(s, w, m1), Local(w, BeginCleanup)) == During(s, w, CleanupMemory(s.workers[w], {}))
  {
    var m0 := FreshMemory(s.workers[w].status, true);
    NextLocal(s, w, m0, ObserveDemandAbsent, m0.(demandAbsent := true));
    NextLocal(s, w, m0.(demandAbsent := true), BeginCleanup, CleanupMemory(s.workers[w], {}));
  }

  /** The worker after a cleanup reconcile that returned. */
  function Rested(wk: Worker): Worker {
    wk.(status := wk.status.(phase := Deleting), mem := None)
  }

  /** Ending the reconcile stores the phase and nothing else, whatever happens next. */
  lemma ReturnRuns(s: State, w: WorkerUid, m: Memory, log: seq<Action>, t: State)
    requires w in s.workers && m.status == s.workers[w].status.(phase := Deleting)
    requires Reaches(WithWorker(s, w, Rested(s.workers[w])), log, t)
    ensures Reaches(During(s, w, m), Return(w) + log, t)
  {
    hide LocalEnabled;
    var s0 := During(s, w, m);
    var s1 := WithWorker(s, w, AfterStatusWrite(WithMem(s.workers[w], m)));
    assert Enabled(s0, Local(w, StatusWritten)) && Next(s0, Local(w, StatusWritten)) == s1 by { ReturnSteps(s, w, m); }
    assert Enabled(s1, Local(w, Stop)) &&
           Next(s1, Local(w, Stop)) == WithWorker(s, w, Rested(s.workers[w])) by { ReturnSteps(s, w, m); }
    RunCons(s1, Local(w, Stop), log, t);
    RunCons(s0, Local(w, StatusWritten), [Local(w, Stop)] + log, t);
    assert [Local(w, StatusWritten)] + ([Local(w, Stop)] + log) == Return(w) + log;
  }

  lemma ReturnSteps(s: State, w: WorkerUid, m: Memory)
    requires w in s.workers && m.status == s.workers[w].status.(phase := Deleting)
    ensures var s0 := During(s, w, m);
            var s1 := WithWorker(s, w, AfterStatusWrite(WithMem(s.workers[w], m)));
            && Enabled(s0, Local(w, StatusWritten)) && Next(s0, Local(w, StatusWritten)) == s1
            && Enabled(s1, Local(w, Stop)) && Next(s1, Local(w, Stop)) == WithWorker(s, w, Rested(s.workers[w]))
  {}

  // ---------- Deleting one resource ----------

  function Deleted(cloud: seq<Resource>, id: nat): seq<Resource>
    requires id < |cloud|
  {
    cloud[id := cloud[id].(deleteRequested := true, gone := true)]
  }

  lemma RemainingFalls(wk: Worker, id: nat, wk': Worker)
    requires id < |wk.cloud| && OneOfEachKind(wk.cloud) && !wk.cloud[id].gone
    requires wk.cloud[id].kind == OSVolume ==> !wk.policy.retainOSVolume
    requires wk'.cloud == Deleted(wk.cloud, id) && wk'.policy == wk.policy
    ensures Remaining(wk') < Remaining(wk)
  {}

  /** A worker's own step on the cluster is its step on the worker. */
  lemma LocalStepAt(s: State, w: WorkerUid, wk: Worker, a: LocalAction)
    requires LocalEnabled(wk, a)
    ensures Enabled(WithWorker(s, w, wk), Local(w, a))
    ensures Next(WithWorker(s, w, wk), Local(w, a)) == WithWorker(s, w, LocalNext(wk, a))
  {}

  lemma VanishAfterRequest(wk: Worker, id: nat)
    requires id < |wk.cloud|
    ensures var wk1 := wk.(cloud := wk.cloud[id := wk.cloud[id].(deleteRequested := true)]);
            && LocalEnabled(Rested(wk1), Vanishes(id))
            && LocalNext(Rested(wk1), Vanishes(id)) == Rested(wk).(cloud := Deleted(wk.cloud, id))
  {}

  /** One resource of the worker went, and nothing else changed but its phase. */
  ghost predicate OneDeleted(s: State, w: WorkerUid, t: State)
    requires w in s.workers
  {
    exists id: nat :: id < |s.workers[w].cloud| &&
      t == WithWorker(s, w, Rested(s.workers[w]).(cloud := Deleted(s.workers[w].cloud, id)))
  }

  function Asked(wk: Worker, id: nat): Worker
    requires id < |wk.cloud|
  {
    wk.(cloud := wk.cloud[id := wk.cloud[id].(deleteRequested := true)])
  }

  lemma ReturnThenVanish(s: State, w: WorkerUid, m: Memory, id: nat, t: State)
    requires w in s.workers && id < |s.workers[w].cloud| && m.status == s.workers[w].status.(phase := Deleting)
    requires t == WithWorker(s, w, Rested(s.workers[w]).(cloud := Deleted(s.workers[w].cloud, id)))
    ensures Reaches(WithWorker(s, w, WithMem(Asked(s.workers[w], id), m)), Return(w) + [Local(w, Vanishes(id))], t)
  {
    hide Reaches, Run, Enabled, Next, Return;
    var wk := s.workers[w];
    var wk1 := Asked(wk, id);
    var s1 := WithWorker(s, w, wk1);
    var last := [Local(w, Vanishes(id))];
    VanishAfterRequest(wk, id);
    LocalStepAt(s, w, Rested(wk1), Vanishes(id));
    assert During(s1, w, m) == WithWorker(s, w, WithMem(wk1, m));
    assert WithWorker(s1, w, Rested(wk1)) == WithWorker(s, w, Rested(wk1));
    EmptyRun(t);
    RunCons(WithWorker(s, w, Rested(wk1)), last[0], [], t);
    assert last + [] == last;
    ReturnRuns(s1, w, m, last, t);
  }

  /** The reconcile sends one delete, returns, and the resource goes. */
  lemma DeleteRuns(s: State, w: WorkerUid, m: Memory, k: Kind, id: nat) returns (t: State)
    requires w in s.workers && Cleanable(s.workers[w]) && OneOfEachKind(s.workers[w].cloud)
    requires m.status == s.workers[w].status.(phase := Deleting)
    requires LocalEnabled(WithMem(s.workers[w], m), RequestDelete(k, id)) && !s.workers[w].cloud[id].gone
    ensures Reaches(During(s, w, m), [Local(w, RequestDelete(k, id))] + Return(w) + [Local(w, Vanishes(id))], t)
    ensures Progressed(s, w, t) && OneDeleted(s, w, t)
  {
    hide Reaches, Run, Enabled, Next, Return, Progressed, OneOfEachKind, OneDeleted;
    var wk := s.workers[w];
    t := WithWorker(s, w, Rested(wk).(cloud := Deleted(wk.cloud, id)));
    var rest := Return(w) + [Local(w, Vanishes(id))];
    LocalStepAt(s, w, WithMem(wk, m), RequestDelete(k, id));
    ReturnThenVanish(s, w, m, id, t);
    RunCons(During(s, w, m), Local(w, RequestDelete(k, id)), rest, t);
    assert [Local(w, RequestDelete(k, id))] + rest
        == [Local(w, RequestDelete(k, id))] + Return(w) + [Local(w, Vanishes(id))];
    DeleteProgresses(s, w, id, t);
  }

  lemma DeleteProgresses(s: State, w: WorkerUid, id: nat, t: State)
    requires w in s.workers && Cleanable(s.workers[w]) && OneOfEachKind(s.workers[w].cloud)
    requires id < |s.workers[w].cloud| && !s.workers[w].cloud[id].gone
    requires s.workers[w].cloud[id].kind == OSVolume ==> !s.workers[w].policy.retainOSVolume
    requires t == WithWorker(s, w, Rested(s.workers[w]).(cloud := Deleted(s.workers[w].cloud, id)))
    ensures Progressed(s, w, t) && OneDeleted(s, w, t)
  {
    hide Remaining;
    RemainingFalls(s.workers[w], id, t.workers[w]);
  }

  lemma EmptyRun(t: State)
    ensures Reaches(t, [], t)
  {}

  // ---------- Releasing the image ----------

  /** Nothing but the finalizer is left to remove. */
  lemma FinishRuns(s: State, w: WorkerUid, m: Memory) returns (t: State)
    requires w in s.workers && LocalEnabled(WithMem(s.workers[w], m), RemoveFinalizer)
    ensures Reaches(During(s, w, m), Finish(w), t)
    ensures w in t.workers && t.workers[w].finalizer == Removed
  {
    hide LocalEnabled, Enabled, Next;
    var wk := WithMem(s.workers[w], m);
    var wk1 := wk.(finalizer := Removed);
    t := WithWorker(s, w, wk1.(mem := None));
    LocalStepAt(s, w, wk, RemoveFinalizer);
    assert LocalEnabled(wk1, Stop) && LocalNext(wk1, Stop) == wk1.(mem := None) by { StopStep(wk1); }
    LocalStepAt(s, w, wk1, Stop);
    EmptyRun(t);
    RunCons(WithWorker(s, w, wk1), Local(w, Stop), [], t);
    RunCons(During(s, w, m), Local(w, RemoveFinalizer), [Local(w, Stop)] + [], t);
    assert [Local(w, RemoveFinalizer)] + ([Local(w, Stop)] + []) == Finish(w);
  }

  lemma StopStep(wk: Worker)
    requires wk.mem.Some?
    ensures LocalEnabled(wk, Stop) && LocalNext(wk, Stop) == wk.(mem := None)
  {}

  /** All resources are gone and the release may begin. */
  function ReleaseMemory(wk: Worker): Memory {
    CleanupMemory(wk, DeletedKinds(wk.policy))
  }

  /** The exits that report done at once. */
  lemma DoneRuns(s: State, w: WorkerUid, m: Memory) returns (t: State)
    requires w in s.workers && CanFinishRelease(During(s, w, m), WithMem(s.workers[w], m))
    requires LocalEnabled(WithMem(s.workers[w], m.(released := true)), RemoveFinalizer)
    ensures Reaches(During(s, w, m), [FinishRelease(w)] + Finish(w), t)
    ensures w in t.workers && t.workers[w].finalizer == Removed
  {
    t := FinishRuns(s, w, m.(released := true));
    assert During(s, w, m).workers[w] == WithMem(s.workers[w], m);
    assert Next(During(s, w, m), FinishRelease(w)) == During(s, w, m.(released := true));
    RunCons(During(s, w, m), FinishRelease(w), Finish(w), t);
  }

  /** The present cache of the recorded name was read and belongs to the worker's image. */
  ghost predicate AtOwnCache(s: State, w: WorkerUid, u: CacheUid) {
    && w in s.workers && Cleanable(s.workers[w])
    && var st := s.workers[w].status;
    && st.cacheName.Some? && st.cacheName.value in s.present && s.present[st.cacheName.value] == u
    && u in s.caches
    && (st.imageID == None || st.imageID == Some(u))
  }

  function ReadMemory(s: State, w: WorkerUid, u: CacheUid): Memory
    requires w in s.workers && u in s.caches
  {
    ReleaseMemory(s.workers[w]).(view := Seen(u, s.caches[u].version, s.caches[u].phase == Active, s.caches[u].refs))
  }

  function Dropped(s: State, w: WorkerUid, u: CacheUid): State
    requires u in s.caches
  {
    var c := s.caches[u];
    s.(caches := s.caches[u := c.(version := if w in c.refs then c.version + 1 else c.version, refs := c.refs - {w},
                                  phase := if c.refs - {w} == {} then Tombstoned else Active)])
  }

  lemma DropStep(s: State, w: WorkerUid, u: CacheUid)
    requires AtOwnCache(s, w, u) && s.caches[u].phase == Active
    ensures var m := ReadMemory(s, w, u);
            && Enabled(During(s, w, m), DropReference(w))
            && Next(During(s, w, m), DropReference(w))
               == During(Dropped(s, w, u), w, m.(view := Unread, released := s.caches[u].refs - {w} != {}))
  {}

  lemma DropRuns(s: State, w: WorkerUid, u: CacheUid) returns (t: State)
    requires AtOwnCache(s, w, u) && s.caches[u].phase == Active
    ensures Reaches(During(s, w, ReadMemory(s, w, u)),
              [DropReference(w)] + (if s.caches[u].refs - {w} == {} then Return(w) else Finish(w)), t)
    ensures Progressed(s, w, t)
  {
    hide Enabled, Next, Reaches, Run, Return, Finish, Remaining;
    var m := ReadMemory(s, w, u);
    var s1 := Dropped(s, w, u);
    var last := s.caches[u].refs - {w} == {};
    var m1 := m.(view := Unread, released := !last);
    DropStep(s, w, u);
    if last {
      t := WithWorker(s1, w, Rested(s.workers[w]));
      EmptyRun(t);
      ReturnRuns(s1, w, m1, [], t);
      assert Return(w) + [] == Return(w);
      RunCons(During(s, w, m), DropReference(w), Return(w), t);
      assert Remaining(t.workers[w]) == Remaining(s.workers[w]) by { SameRemaining(t.workers[w], s.workers[w]); }
    } else {
      t := FinishRuns(s1, w, m1);
      RunCons(During(s, w, m), DropReference(w), Finish(w), t);
    }
  }

  lemma SameRemaining(wk: Worker, wk': Worker)
    requires wk.cloud == wk'.cloud && wk.policy == wk'.policy
    ensures Remaining(wk) == Remaining(wk')
  {}

  function ImageGone(s: State, u: CacheUid): State
    requires u in s.images
  {
    s.(images := s.images[u := s.images[u].(deleteRequested := true, gone := true)])
  }

  lemma DeleteImageSteps(s: State, w: WorkerUid, u: CacheUid)
    requires AtOwnCache(s, w, u) && s.caches[u].phase != Active && ImageExists(s.images, u)
    ensures var m := ReadMemory(s, w, u);
            var s1 := s.(images := s.images[u := s.images[u].(deleteRequested := true)]);
            var s2 := WithWorker(s1, w, Rested(s.workers[w]));
            && Enabled(During(s, w, m), DeleteImage(w)) && Next(During(s, w, m), DeleteImage(w)) == During(s1, w, m)
            && Enabled(s2, ImageVanishes(u))
            && Next(s2, ImageVanishes(u)) == WithWorker(ImageGone(s, u), w, Rested(s.workers[w]))
  {
    hide LocalEnabled, LocalNext;
    var m := ReadMemory(s, w, u);
    assert During(s, w, m).workers[w] == WithMem(s.workers[w], m);
    var requested := s.images[u].(deleteRequested := true);
    assert s.images[u := requested][u := requested.(gone := true)] == s.images[u := requested.(gone := true)];
  }

  lemma DeleteImageRuns(s: State, w: WorkerUid, u: CacheUid) returns (t: State)
    requires AtOwnCache(s, w, u) && s.caches[u].phase != Active && ImageExists(s.images, u)
    ensures Reaches(During(s, w, ReadMemory(s, w, u)), [DeleteImage(w)] + Return(w) + [ImageVanishes(u)], t)
    ensures Progressed(s, w, t) && t == WithWorker(ImageGone(s, u), w, Rested(s.workers[w]))
  {
    hide Enabled, Next, Reaches, Run, Return, Remaining;
    var m := ReadMemory(s, w, u);
    var s1 := s.(images := s.images[u := s.images[u].(deleteRequested := true)]);
    var s2 := WithWorker(s1, w, Rested(s.workers[w]));
    t := WithWorker(ImageGone(s, u), w, Rested(s.workers[w]));
    DeleteImageSteps(s, w, u);
    EmptyRun(t);
    RunCons(s2, ImageVanishes(u), [], t);
    assert [ImageVanishes(u)] + [] == [ImageVanishes(u)];
    ReturnRuns(s1, w, m, [ImageVanishes(u)], t);
    RunCons(During(s, w, m), DeleteImage(w), Return(w) + [ImageVanishes(u)], t);
    assert [DeleteImage(w)] + (Return(w) + [ImageVanishes(u)]) == [DeleteImage(w)] + Return(w) + [ImageVanishes(u)];
    assert Remaining(t.workers[w]) == Remaining(s.workers[w]) by { SameRemaining(t.workers[w], s.workers[w]); }
  }

  lemma CollectSteps(s: State, w: WorkerUid, u: CacheUid) returns (s1: State)
    requires AtOwnCache(s, w, u) && s.caches[u].phase != Active && !ImageExists(s.images, u)
    ensures var m := ReadMemory(s, w, u);
            var m1 := m.(imageAbsent := Some(u));
            && Enabled(During(s, w, m), ObserveImageAbsent(w))
            && Next(During(s, w, m), ObserveImageAbsent(w)) == During(s, w, m1)
            && Enabled(During(s, w, m1), DeleteCache(w))
            && w in s1.workers && s1.workers[w] == s.workers[w]
            && Next(During(s, w, m1), DeleteCache(w)) == During(s1, w, m1.(released := true))
  {
    hide LocalEnabled, LocalNext;
    var m := ReadMemory(s, w, u);
    assert During(s, w, m).workers[w] == WithMem(s.workers[w], m);
    var m1 := m.(imageAbsent := Some(u));
    assert During(s, w, m1).workers[w] == WithMem(s.workers[w], m1);
    var key := s.workers[w].status.cacheName.value;
    s1 := s.(present := s.present - {key}, caches := s.caches[u := s.caches[u].(phase := Collected)]);
  }

  lemma CollectRuns(s: State, w: WorkerUid, u: CacheUid) returns (t: State)
    requires AtOwnCache(s, w, u) && s.caches[u].phase != Active && !ImageExists(s.images, u)
    ensures Reaches(During(s, w, ReadMemory(s, w, u)), [ObserveImageAbsent(w), DeleteCache(w)] + Finish(w), t)
    ensures Progressed(s, w, t)
  {
    hide Enabled, Next, Reaches, Run, Finish;
    var m := ReadMemory(s, w, u);
    var m1 := m.(imageAbsent := Some(u));
    var s1 := CollectSteps(s, w, u);
    t := FinishRuns(s1, w, m1.(released := true));
    RunCons(During(s, w, m1), DeleteCache(w), Finish(w), t);
    RunCons(During(s, w, m), ObserveImageAbsent(w), [DeleteCache(w)] + Finish(w), t);
    assert [ObserveImageAbsent(w)] + ([DeleteCache(w)] + Finish(w))
           == [ObserveImageAbsent(w), DeleteCache(w)] + Finish(w);
  }

  lemma ReadStep(s: State, w: WorkerUid)
    requires w in s.workers && Cleanable(s.workers[w]) && s.workers[w].status.cacheName.Some?
    ensures var m := ReleaseMemory(s.workers[w]);
            && Enabled(During(s, w, m), ReadCache(w))
            && Next(During(s, w, m), ReadCache(w))
               == During(s, w, m.(view := ReadName(s, s.workers[w].status.cacheName.value)))
  {}

  lemma PresentIsKnown(s: State, key: CacheKey)
    requires Inv(s) && key in s.present
    ensures s.present[key] in s.caches
  {}

  lemma RemovalEnabled(wk: Worker, m: Memory)
    requires Cleanable(wk) && m.cleanup && m.demandAbsent && m.status.phase == Deleting && m.released
    requires DeletedKinds(wk.policy) <= m.absent
    ensures LocalEnabled(WithMem(wk, m), RemoveFinalizer)
  {}

  lemma DoneEnabled(s: State, w: WorkerUid, m: Memory)
    requires CleanupInv(s) && w in s.workers && Cleanable(s.workers[w])
    requires m == ReleaseMemory(s.workers[w]).(view := m.view)
    requires var st := s.workers[w].status;
             || st.cacheName == None
             || (m.view == Missing && st.cacheName.value !in s.present)
             || (m.view.Seen? && st.imageID.Some? && st.imageID.value != m.view.uid
                 && st.cacheName.value in s.present && s.present[st.cacheName.value] == m.view.uid)
    ensures CanFinishRelease(During(s, w, m), WithMem(s.workers[w], m))
  {}

  /** releaseDiscoveryImage makes progress from every reachable state of the cache. */
  lemma ReleaseRuns(s: State, w: WorkerUid) returns (t: State)
    requires CleanupInv(s) && w in s.workers && Cleanable(s.workers[w])
    ensures Reaches(During(s, w, ReleaseMemory(s.workers[w])), ReleaseLog(s, w), t)
    ensures Progressed(s, w, t)
  {
    hide Enabled, Next, Reaches, Run, Finish, Return, Inv, AllNamed, LocalEnabled, CanFinishRelease, Measure;
    var wk := s.workers[w];
    var st := wk.status;
    var m0 := ReleaseMemory(wk);
    if st.cacheName == None {
      DoneEnabled(s, w, m0);
      RemovalEnabled(wk, m0.(released := true));
      t := DoneRuns(s, w, m0);
      return;
    }
    var key := st.cacheName.value;
    var m := m0.(view := ReadName(s, key));
    ReadStep(s, w);
    if key in s.present {
      PresentIsKnown(s, key);
    }
    if key !in s.present || (st.imageID.Some? && st.imageID.value != s.present[key]) {
      DoneEnabled(s, w, m);
      RemovalEnabled(wk, m.(released := true));
      t := DoneRuns(s, w, m);
      RunCons(During(s, w, m0), ReadCache(w), [FinishRelease(w)] + Finish(w), t);
    } else {
      t := OwnCacheRuns(s, w, s.present[key]);
    }
  }

  lemma OwnCacheRuns(s: State, w: WorkerUid, u: CacheUid) returns (t: State)
    requires AtOwnCache(s, w, u)
    ensures Reaches(During(s, w, ReleaseMemory(s.workers[w])), ReleaseLog(s, w), t)
    ensures Progressed(s, w, t)
    ensures s.caches[u].phase != Active && ImageExists(s.images, u) ==>
              t == WithWorker(ImageGone(s, u), w, Rested(s.workers[w]))
  {
    hide Enabled, Next, Reaches, Run, Finish, Return, Progressed;
    var m0 := ReleaseMemory(s.workers[w]);
    ReadStep(s, w);
    if s.caches[u].phase == Active {
      t := DropRuns(s, w, u);
    } else if ImageExists(s.images, u) {
      t := DeleteImageRuns(s, w, u);
    } else {
      t := CollectRuns(s, w, u);
    }
    RunCons(During(s, w, m0), ReadCache(w), ReleaseLog(s, w)[1..], t);
    assert [ReadCache(w)] + ReleaseLog(s, w)[1..] == ReleaseLog(s, w);
  }

  // ---------- One whole pass ----------

  /** The kinds before the n-th in the deletion order. */
  function Earlier(policy: Policy, n: nat): set<Kind>
    requires n <= |DeletionOrder(policy)|
  {
    set i | 0 <= i < n :: DeletionOrder(policy)[i]
  }

  /** The deletion order is the order that the protocol asks for. */
  lemma OrderIsProtocolOrder(policy: Policy, n: nat)
    requires n <= |DeletionOrder(policy)|
    ensures n < |DeletionOrder(policy)| ==> Earlier(policy, n) == DeletedBefore(DeletionOrder(policy)[n], policy)
    ensures n == |DeletionOrder(policy)| ==> Earlier(policy, n) == DeletedKinds(policy)
    ensures n < |DeletionOrder(policy)| ==> Earlier(policy, n) + {DeletionOrder(policy)[n]} == Earlier(policy, n + 1)
  {
    var order := DeletionOrder(policy);
    if n < |order| {
      assert Earlier(policy, n) == DeletedBefore(order[n], policy) by {
        if n >= 1 { assert order[0] in Earlier(policy, n); }
        if n >= 2 { assert order[1] in Earlier(policy, n); }
        if n >= 3 { assert order[2] in Earlier(policy, n); }
      }
    } else {
      assert order[0] in Earlier(policy, n) && order[1] in Earlier(policy, n) && order[2] in Earlier(policy, n);
      assert order[n - 1] in Earlier(policy, n);
    }
  }

  /** The absence of kind k is observed by Get if it was recorded, by Find otherwise. */
  lemma AbsenceStep(wk: Worker, absent: set<Kind>, k: Kind)
    requires LocalInv(wk) && Cleanable(wk) && FindLive(wk.cloud, k).None?
    ensures var m := CleanupMemory(wk, absent);
            var a := if k in wk.status.ids then GotNoResource(k) else FoundNoResource(k);
            LocalEnabled(WithMem(wk, m), a) &&
                LocalNext(WithMem(wk, m), a) == WithMem(wk, CleanupMemory(wk, absent + {k}))
  {}

  /** A resource of the n-th kind or a later one still exists. */
  ghost predicate SomeLive(wk: Worker, n: nat) {
    exists j :: n <= j < |DeletionOrder(wk.policy)| && FindLive(wk.cloud, DeletionOrder(wk.policy)[j]).Some?
  }

  lemma {:induction false} DeletionRuns(s: State, w: WorkerUid, n: nat) returns (t: State)
    requires CleanupInv(s) && w in s.workers && Cleanable(s.workers[w]) && LocalInv(s.workers[w])
    requires n <= |DeletionOrder(s.workers[w].policy)|
    ensures Reaches(During(s, w, CleanupMemory(s.workers[w], Earlier(s.workers[w].policy, n))), DeletionLog(s, w, n), t)
    ensures Progressed(s, w, t)
    ensures SomeLive(s.workers[w], n) ==> OneDeleted(s, w, t)
    decreases |DeletionOrder(s.workers[w].policy)| - n
  {
    hide Enabled, Next, Reaches, Run, Return, ReleaseLog, CleanupInv, LocalInv, Earlier, Progressed, LocalEnabled,
         LocalNext, Cleanable, OneDeleted;
    var wk := s.workers[w];
    OrderIsProtocolOrder(wk.policy, n);
    var m := CleanupMemory(wk, Earlier(wk.policy, n));
    if n == |DeletionOrder(wk.policy)| {
      t := ReleaseRuns(s, w);
    } else {
      var k := DeletionOrder(wk.policy)[n];
      var live := FindLive(wk.cloud, k);
      if live.Some? {
        RequestEnabled(wk, m, k, live.value);
        t := DeleteRuns(s, w, m, k, live.value);
      } else {
        AbsenceStep(wk, Earlier(wk.policy, n), k);
        var a := if k in wk.status.ids then GotNoResource(k) else FoundNoResource(k);
        NextLocal(s, w, m, a, CleanupMemory(wk, Earlier(wk.policy, n + 1)));
        t := DeletionRuns(s, w, n + 1);
        RunCons(During(s, w, m), Local(w, a), DeletionLog(s, w, n + 1), t);
      }
    }
  }

  lemma SomeKindLive(wk: Worker)
    ensures AllGone(wk.cloud, DeletedKinds(wk.policy)) || SomeLive(wk, 0)
  {
    var order := DeletionOrder(wk.policy);
    if !SomeLive(wk, 0) {
      assert forall j :: 0 <= j < |order| ==> AllGone(wk.cloud, {order[j]});
      forall k | k in DeletedKinds(wk.policy) ensures AllGone(wk.cloud, {k}) {
        assert k == order[0] || k == order[1] || k == order[2] || (|order| == 4 && k == order[3]);
      }
    }
  }

  lemma RequestEnabled(wk: Worker, m: Memory, k: Kind, id: nat)
    requires LocalInv(wk) && Cleanable(wk) && k in DeletionOrder(wk.policy)
    requires m == CleanupMemory(wk, DeletedBefore(k, wk.policy))
    requires id < |wk.cloud| && wk.cloud[id].kind == k
    ensures LocalEnabled(WithMem(wk, m), RequestDelete(k, id)) && OneOfEachKind(wk.cloud)
  {}

  /** Every cleanup reconcile is possible, and it finishes cleanup or lowers the measure. */
  lemma CleanupPassProgresses(s: State, w: WorkerUid) returns (t: State)
    requires CleanupInv(s) && w in s.workers && Cleanable(s.workers[w])
    ensures Reaches(s, CleanupLog(s, w), t)
    ensures Progressed(s, w, t)
    ensures !AllGone(s.workers[w].cloud, DeletedKinds(s.workers[w].policy)) ==> OneDeleted(s, w, t)
  {
    hide Enabled, Next, Reaches, Run, Progressed, AllNamed, LocalInv, Cleanable, DeletionLog, OneDeleted;
    SomeKindLive(s.workers[w]);
    t := DeletionRuns(s, w, 0);
    assert Earlier(s.workers[w].policy, 0) == {};
    OpeningRuns(s, w, DeletionLog(s, w, 0), t);
  }

  // ---------- What the others do between two passes ----------

  /**
   * Anything but a reconcile of worker w. Only a worker that never pinned its image can be held
   * up: by a new cache under the name that it recorded.
   */
  predicate Harmless(s: State, a: Action, w: WorkerUid)
    requires Enabled(s, a) && w in s.workers
  {
    && !TakenBy(a, w)
    && (a.CreateCache? && s.workers[w].status.imageID == None ==>
          s.workers[a.w].mem.value.status.cacheName != s.workers[w].status.cacheName)
  }

  lemma RemainingNeverRises(wk: Worker, wk': Worker)
    requires Undisturbed(wk, wk')
    ensures Remaining(wk') <= Remaining(wk)
  {}

  lemma OnlyCreateImageAddsImages(s: State, a: Action, u: CacheUid)
    requires Enabled(s, a) && !ImageExists(s.images, u) && ImageExists(Next(s, a).images, u)
    ensures a.CreateImage? && s.workers[a.w].mem.Some? && s.workers[a.w].mem.value.holding == Some(u)
  {}

  /** An image is created only for a cache that is still active. */
  lemma ImageCreatedOnlyWhileActive(s: State, a: Action, u: CacheUid)
    requires Inv(s) && Enabled(s, a) && !ImageExists(s.images, u) && ImageExists(Next(s, a).images, u)
    ensures u in s.caches && s.caches[u].phase == Active
  {
    OnlyCreateImageAddsImages(s, a, u);
    assert a.w in s.workers;
    hide Enabled, Next, LocalInv, ImageOK, PresentOK, ViewOK, LiveBacked;
    assert Linked(s.caches, s.images, a.w, s.workers[a.w]);
    assert CacheOK(s, u);
  }

  lemma CacheStageNeverRises(s: State, a: Action, u: CacheUid)
    requires Inv(s) && Enabled(s, a) && u in s.caches
    ensures CacheStage(Next(s, a), u) <= CacheStage(s, u)
  {
    hide Inv, Enabled, Next, ImageExists;
    if s.caches[u].phase != Active {
      InvariantViews(s);
      StepKeepsTombstone(s, a, u);
      if !ImageExists(s.images, u) && ImageExists(Next(s, a).images, u) {
        ImageCreatedOnlyWhileActive(s, a, u);
      }
    }
  }

  /** A name is given to another cache only while nothing carries it. */
  lemma NameChangesOnlyByCreateAndDelete(s: State, a: Action, key: CacheKey)
    requires Enabled(s, a) && key in Next(s, a).present
    requires key !in s.present || Next(s, a).present[key] != s.present[key]
    ensures a.CreateCache? && s.workers[a.w].mem.value.status.cacheName == Some(key)
  {}

  lemma StageIsPositive(s: State, st: Status)
    ensures 1 <= CollectionStage(s, st)
  {}

  lemma CollectionStageNeverRises(s: State, a: Action, w: WorkerUid)
    requires CleanupInv(s) && w in s.workers && Enabled(s, a) && Harmless(s, a, w)
    ensures CollectionStage(Next(s, a), s.workers[w].status) <= CollectionStage(s, s.workers[w].status)
  {
    hide Inv, Enabled, Next, CacheStage;
    var st := s.workers[w].status;
    assert WorkerNamed(s.caches, s.workers[w]);
    if st.cacheName == None {
    } else if st.imageID.Some? {
      CacheStageNeverRises(s, a, st.imageID.value);
    } else if st.cacheName.value in Next(s, a).present {
      var key := st.cacheName.value;
      if key !in s.present || Next(s, a).present[key] != s.present[key] {
        NameChangesOnlyByCreateAndDelete(s, a, key);
        assert false;
      }
      PresentIsKnown(s, key);
      CacheStageNeverRises(s, a, s.present[key]);
    } else {
      assert CollectionStage(Next(s, a), st) == 1;
      StageIsPositive(s, st);
    }
  }

  lemma OthersNeverRaiseMeasure(s: State, a: Action, w: WorkerUid)
    requires CleanupInv(s) && w in s.workers && Cleanable(s.workers[w])
    requires Enabled(s, a) && Harmless(s, a, w)
    ensures w in Next(s, a).workers && Cleanable(Next(s, a).workers[w])
    ensures Next(s, a).workers[w].status == s.workers[w].status
    ensures Measure(Next(s, a), w) <= Measure(s, w)
  {
    hide CleanupInv, Enabled, Next, CollectionStage, Remaining;
    OthersLeaveWorkerAlone(s, a, w);
    RemainingNeverRises(s.workers[w], Next(s, a).workers[w]);
    CollectionStageNeverRises(s, a, w);
  }

  /** Of all that the others can do, exactly a new cache under the recorded name raises the measure. */
  lemma MeasureRisesIffNameReused(s: State, a: Action, w: WorkerUid)
    requires CleanupInv(s) && w in s.workers && Cleanable(s.workers[w]) && Enabled(s, a) && !TakenBy(a, w)
    ensures w in Next(s, a).workers
    ensures Measure(Next(s, a), w) > Measure(s, w) <==> !Harmless(s, a, w)
  {
    hide CleanupInv, Enabled, Next, Measure;
    if Harmless(s, a, w) {
      OthersNeverRaiseMeasure(s, a, w);
    } else {
      NameReuseRaisesMeasure(s, a.w, a.uid, w);
    }
  }

  lemma NameReuseRaisesMeasure(s: State, x: WorkerUid, u: CacheUid, w: WorkerUid)
    requires Enabled(s, CreateCache(x, u)) && w in s.workers && x != w && s.workers[w].status.imageID == None
    requires s.workers[x].mem.value.status.cacheName == s.workers[w].status.cacheName
    ensures w in Next(s, CreateCache(x, u)).workers && Measure(Next(s, CreateCache(x, u)), w) > Measure(s, w)
  {
    hide Remaining;
  }

  /** Any number of actions of the others. */
  function OthersRun(s: State, w: WorkerUid, log: seq<Action>): Option<State>
    decreases |log|
  {
    if log == [] then Some(s)
    else if Enabled(s, log[0]) && !TakenBy(log[0], w) then OthersRun(Next(s, log[0]), w, log[1..])
    else None
  }

  ghost predicate HarmlessLog(s: State, w: WorkerUid, log: seq<Action>)
    decreases |log|
  {
    log != [] ==>
      && w in s.workers && Enabled(s, log[0]) && Harmless(s, log[0], w)
      && HarmlessLog(Next(s, log[0]), w, log[1..])
  }

  /** The worker pinned its image, or recorded no cache name at all. */
  predicate NameSettled(st: Status) {
    st.imageID.Some? || st.cacheName == None
  }

  lemma OthersHarmlessToPinned(s: State, a: Action, w: WorkerUid)
    requires Enabled(s, a) && w in s.workers && !TakenBy(a, w) && NameSettled(s.workers[w].status)
    ensures Harmless(s, a, w) && w in Next(s, a).workers && Next(s, a).workers[w].status == s.workers[w].status
  {
    OthersLeaveWorkerAlone(s, a, w);
  }

  lemma {:induction false} PinnedRunIsHarmless(s: State, w: WorkerUid, log: seq<Action>)
    requires w in s.workers && NameSettled(s.workers[w].status) && OthersRun(s, w, log).Some?
    ensures HarmlessLog(s, w, log)
    decreases |log|
  {
    hide Enabled, Next, Harmless, NameSettled;
    if log != [] {
      OthersHarmlessToPinned(s, log[0], w);
      PinnedRunIsHarmless(Next(s, log[0]), w, log[1..]);
    }
  }

  lemma {:induction false} HarmlessRunKeepsMeasure(s: State, w: WorkerUid, log: seq<Action>, t: State)
    requires CleanupInv(s) && w in s.workers && Cleanable(s.workers[w])
    requires OthersRun(s, w, log) == Some(t) && HarmlessLog(s, w, log)
    ensures CleanupInv(t) && w in t.workers && Cleanable(t.workers[w]) && Measure(t, w) <= Measure(s, w)
    ensures t.workers[w].status == s.workers[w].status
    decreases |log|
  {
    hide Inv, AllNamed, Enabled, Next, Harmless, Cleanable, Measure;
    if log != [] {
      OthersNeverRaiseMeasure(s, log[0], w);
      StepKeepsInvariant(s, log[0]);
      StepKeepsNamed(s, log[0]);
      HarmlessRunKeepsMeasure(Next(s, log[0]), w, log[1..], t);
    }
  }

  /** One round: the others act, then one cleanup reconcile. */
  function Round(s: State, w: WorkerUid, log: seq<Action>): Option<State> {
    var mid := OthersRun(s, w, log);
    if mid.Some? && w in mid.value.workers then Run(mid.value, CleanupLog(mid.value, w)) else None
  }

  /** Rounds until the finalizer is gone. */
  function AfterRounds(s: State, w: WorkerUid, noise: seq<seq<Action>>): Option<State>
    decreases |noise|
  {
    if w !in s.workers then None
    else if noise == [] || s.workers[w].finalizer == Removed then Some(s)
    else if Round(s, w, noise[0]).None? then None
    else AfterRounds(Round(s, w, noise[0]).value, w, noise[1..])
  }

  /** In no round the others do anything that is not harmless. */
  ghost predicate HarmlessRounds(s: State, w: WorkerUid, noise: seq<seq<Action>>)
    decreases |noise|
  {
    noise != [] ==>
      && HarmlessLog(s, w, noise[0])
      && (Round(s, w, noise[0]).Some? ==> HarmlessRounds(Round(s, w, noise[0]).value, w, noise[1..]))
  }

  lemma {:induction false} RoundsFinish(s: State, w: WorkerUid, noise: seq<seq<Action>>, t: State)
    requires CleanupInv(s) && w in s.workers && (s.workers[w].finalizer == Removed || Cleanable(s.workers[w]))
    requires s.workers[w].finalizer != Removed ==> |noise| >= Measure(s, w)
    requires AfterRounds(s, w, noise) == Some(t)
    requires s.workers[w].finalizer == Removed || NameSettled(s.workers[w].status) || HarmlessRounds(s, w, noise)
    ensures w in t.workers && t.workers[w].finalizer == Removed
    decreases |noise|
  {
    hide CleanupInv, Cleanable, Measure, Run, CleanupLog, OthersRun, HarmlessLog;
    if s.workers[w].finalizer != Removed {
      var mid := OthersRun(s, w, noise[0]).value;
      if NameSettled(s.workers[w].status) {
        PinnedRunIsHarmless(s, w, noise[0]);
      }
      HarmlessRunKeepsMeasure(s, w, noise[0], mid);
      var next := CleanupPassProgresses(mid, w);
      RunKeepsNamed(mid, CleanupLog(mid, w), next);
      RoundsFinish(next, w, noise[1..], t);
    }
  }

  /**
   * With deletion requested, demand gone, no unresolved create and deletes that take effect, seven
   * cleanup reconciles remove the finalizer: for a worker that pinned its image or recorded no
   * cache name whatever the others do between them, for any other worker unless they create a new
   * cache under its name.
   */
  lemma CleanupFinishes(s: State, w: WorkerUid, noise: seq<seq<Action>>, t: State)
    requires Reachable(s) && w in s.workers && Cleanable(s.workers[w])
    requires |noise| == 7 && AfterRounds(s, w, noise) == Some(t)
    requires NameSettled(s.workers[w].status) || HarmlessRounds(s, w, noise)
    ensures w in t.workers && t.workers[w].finalizer == Removed
  {
    ReachableCleanupInv(s);
    hide CleanupInv, Cleanable, AfterRounds, HarmlessRounds;
    RoundsFinish(s, w, noise, t);
  }
}
