/** What holds over whole runs: any number of workers, any interleaving, any crashes. */
module OpenStackRuns {
  import opened Common
  import opened OpenStackTypes
  import opened OpenStackWorker
  import opened OpenStackCache
  import opened OpenStackLinks

  /** The state reached by a sequence of actions, or None if one of them was not possible. */
  function Run(s: State, log: seq<Action>): Option<State>
    decreases |log|
  {
    if log == [] then Some(s)
    else if Enabled(s, log[0]) then Run(Next(s, log[0]), log[1..])
    else None
  }

  ghost predicate Reaches(s: State, log: seq<Action>, s': State) {
    Run(s, log) == Some(s')
  }

  ghost predicate Reachable(s: State) {
    exists log :: Reaches(EMPTY, log, s)
  }

  lemma {:induction false} RunKeepsInvariant(s: State, log: seq<Action>, s': State)
    requires Inv(s) && Reaches(s, log, s')
    ensures Inv(s')
    decreases |log|
  {
    if log != [] {
      StepKeepsInvariant(s, log[0]);
      RunKeepsInvariant(Next(s, log[0]), log[1..], s');
    }
  }

  lemma ReachableInvariant(s: State)
    requires Reachable(s)
    ensures Inv(s)
  {
    var log :| Reaches(EMPTY, log, s);
    RunKeepsInvariant(EMPTY, log, s);
  }

  lemma {:induction false} RunAppend(s: State, log: seq<Action>, mid: State, a: Action)
    requires Reaches(s, log, mid) && Enabled(mid, a)
    ensures Reaches(s, log + [a], Next(mid, a))
    decreases |log|
  {
    if log == [] {
      assert [a][1..] == [];
    } else {
      assert (log + [a])[1..] == log[1..] + [a];
      RunAppend(Next(s, log[0]), log[1..], mid, a);
    }
  }

  /** One possible step from one state to the next. */
  ghost predicate StepOf(s: State, a: Action, s': State) {
    Enabled(s, a) && s' == Next(s, a)
  }

  /** A recorded history: every state that was passed through and every action taken. */
  ghost predicate History(states: seq<State>, log: seq<Action>) {
    && |states| == |log| + 1
    && states[0] == EMPTY
    && forall i {:trigger log[i]} :: 0 <= i < |log| ==> StepOf(states[i], log[i], states[i + 1])
  }

  lemma {:induction false} HistoryIsRun(states: seq<State>, log: seq<Action>)
    requires History(states, log)
    ensures Reaches(EMPTY, log, states[|log|])
    decreases |log|
  {
    if log != [] {
      var n := |log| - 1;
      var before := log[..n];
      assert forall i :: 0 <= i < n ==> before[i] == log[i];
      HistoryIsRun(states[..n + 1], before);
      assert StepOf(states[n], log[n], states[n + 1]);
      RunAppend(EMPTY, before, states[n], log[n]);
      assert before + [log[n]] == log;
    }
  }

  // ---------- A reconcile and everybody else ----------

  /** An action taken by the reconcile of worker w itself. */
  predicate TakenBy(a: Action, w: WorkerUid) {
    match a
    case AddWorker(_, _) => false
    case Local(x, step) =>
      x == w && !step.MarkDeleting? && !step.DemandDisappears? && !step.BecomesListed? && !step.Vanishes?
    case ImageBecomesActive(_) => false
    case ImageVanishes(_) => false
    case _ => a.w == w
  }

  /** Known resources keep their place and kind and only move forward. */
  ghost predicate CloudGrows(cloud: seq<Resource>, cloud': seq<Resource>) {
    && |cloud| <= |cloud'|
    && forall i :: 0 <= i < |cloud| ==>
         && cloud'[i].kind == cloud[i].kind
         && (cloud[i].listed ==> cloud'[i].listed)
         && (cloud[i].gone ==> cloud'[i].gone)
  }

  ghost predicate CloudMoves(cloud: seq<Resource>, cloud': seq<Resource>) {
    && |cloud'| == |cloud| && CloudGrows(cloud, cloud')
    && forall i :: 0 <= i < |cloud| ==> cloud'[i].deleteRequested == cloud[i].deleteRequested
  }

  /** What interference can do to a worker: the environment moves on, status and memory stay. */
  ghost predicate Undisturbed(wk: Worker, wk': Worker) {
    && wk'.status == wk.status && wk'.mem == wk.mem
    && wk'.finalizer == wk.finalizer && wk'.policy == wk.policy
    && (wk'.demand ==> wk.demand)
    && (wk.deleting ==> wk'.deleting)
    && CloudMoves(wk.cloud, wk'.cloud)
  }

  lemma EnvironmentMovesForward(wk: Worker, a: LocalAction)
    requires LocalEnabled(wk, a) && (a.MarkDeleting? || a.DemandDisappears? || a.BecomesListed? || a.Vanishes?)
    ensures Undisturbed(wk, LocalNext(wk, a))
  {}

  lemma OthersLeaveWorkerAlone(s: State, a: Action, w: WorkerUid)
    requires Enabled(s, a) && w in s.workers && !TakenBy(a, w)
    ensures w in Next(s, a).workers && Undisturbed(s.workers[w], Next(s, a).workers[w])
  {
    if a.Local? && a.w == w {
      EnvironmentMovesForward(s.workers[w], a.step);
    } else {
      assert Next(s, a).workers[w] == s.workers[w];
    }
  }

  // ---------- The create journal ----------

  /** At most one resource of each kind is ever created for a worker. */
  lemma AtMostOneCreatePerKind(s: State, w: WorkerUid, i: nat, j: nat)
    requires Reachable(s) && w in s.workers
    requires i < |s.workers[w].cloud| && j < |s.workers[w].cloud|
    requires s.workers[w].cloud[i].kind == s.workers[w].cloud[j].kind
    ensures i == j
  {
    ReachableInvariant(s);
    assert LocalInv(s.workers[w]);
  }

  /** A POST is only ever issued for a kind of which nothing exists or existed. */
  lemma PostNeverRepeats(s: State, w: WorkerUid, k: Kind, replied: bool)
    requires Reachable(s) && Enabled(s, Local(w, Post(k, replied)))
    ensures s.workers[w].status.pendingCreate == Some(k)
    ensures forall i :: 0 <= i < |s.workers[w].cloud| ==> s.workers[w].cloud[i].kind != k
  {
    ReachableInvariant(s);
    assert LocalInv(s.workers[w]);
  }

  /** What the phases of provisioning leave in a status. */
  ghost predicate Shaped(st: Status) {
    && (st.pendingCreate.Some? ==> st.pendingCreate.value !in st.ids)
    && (Server in st.ids || st.pendingCreate == Some(Server) ==>
          st.macKnown && {Port, OSVolume, DiscoveryVolume} <= st.ids.Keys && st.imageID.Some?)
    && (st.cacheName.Some? ==>
          st.macKnown && {Port, OSVolume} <= st.ids.Keys && st.isoDigest == Some(st.cacheName.value.digest))
    && (st.imageID.Some? ==> st.cacheName.Some?)
  }

  lemma StatusShape(st: Status)
    requires StatusOK(st)
    ensures Shaped(st)
  {}

  /** The shape of every durable status. */
  lemma DurableStatusShape(s: State, w: WorkerUid)
    requires Reachable(s) && w in s.workers
    ensures Shaped(s.workers[w].status)
  {
    ReachableInvariant(s);
    InvariantLocal(s, w);
    hide Inv, Shaped, StatusOK, AllAccounted, DeletesJustified, MemoryOK, FinalizerOK, OneOfEachKind, IdsOK;
    StatusShape(s.workers[w].status);
  }

  lemma LocalStatusChange(wk: Worker, a: LocalAction)
    requires LocalEnabled(wk, a)
    ensures LocalNext(wk, a).status == if a.StatusWritten? then wk.mem.value.status else wk.status
  {}

  /** The stored status of a worker changes only by its own status write. */
  lemma OnlyOwnWriteChangesStatus(s: State, a: Action, w: WorkerUid)
    requires Enabled(s, a) && w in s.workers
    ensures w in Next(s, a).workers
    ensures if a == Local(w, StatusWritten)
            then Next(s, a).workers[w].status == s.workers[w].mem.value.status
            else Next(s, a).workers[w].status == s.workers[w].status
  {
    if a.Local? {
      hide LocalEnabled, LocalNext;
      LocalStatusChange(s.workers[a.w], a.step);
    }
  }

  lemma StepKeepsIds(s: State, a: Action, w: WorkerUid, k: Kind)
    requires Enabled(s, a) && w in s.workers && LocalInv(s.workers[w]) && k in s.workers[w].status.ids
    ensures var s' := Next(s, a);
            w in s'.workers && k in s'.workers[w].status.ids &&
                s'.workers[w].status.ids[k] == s.workers[w].status.ids[k]
  {
    OnlyOwnWriteChangesStatus(s, a, w);
  }

  /** A recorded ID never changes and is never lost. */
  lemma {:induction false} RecordedIdsNeverChange(s: State, log: seq<Action>, s': State, w: WorkerUid, k: Kind)
    requires Inv(s) && Reaches(s, log, s') && w in s.workers && k in s.workers[w].status.ids
    ensures w in s'.workers && k in s'.workers[w].status.ids
    ensures s'.workers[w].status.ids[k] == s.workers[w].status.ids[k]
    decreases |log|
  {
    if log != [] {
      StepKeepsIds(s, log[0], w, k);
      StepKeepsInvariant(s, log[0]);
      RecordedIdsNeverChange(Next(s, log[0]), log[1..], s', w, k);
    }
  }

  // ---------- A journal entry without a resource ----------

  /**
   * The entry is stored, but no resource of its kind exists: nothing was posted (the process
   * stopped between the two, or the intent was stored only by the error path), or the resource
   * vanished before its ID was recorded. No reconcile may post it either.
   */
  ghost predicate EmptyEntry(wk: Worker, k: Kind) {
    && wk.status.pendingCreate == Some(k) && AllGone(wk.cloud, {k})
    && (wk.mem.Some? ==>
          wk.mem.value.status.pendingCreate == Some(k) && wk.mem.value.armed == None && k !in wk.mem.value.absent)
    && (k in DeletedKinds(wk.policy) ==> wk.finalizer != Removed)
  }

  lemma LocalStepKeepsEmptyEntry(wk: Worker, a: LocalAction, k: Kind)
    requires LocalEnabled(wk, a) && EmptyEntry(wk, k) && (wk.mem.Some? ==> k !in wk.mem.value.status.ids)
    ensures EmptyEntry(LocalNext(wk, a), k)
  {
    hide Prerequisites, CanRefresh;
  }

  lemma StepKeepsEmptyEntry(s: State, a: Action, w: WorkerUid, k: Kind)
    requires Inv(s) && Enabled(s, a) && w in s.workers && EmptyEntry(s.workers[w], k)
    ensures w in Next(s, a).workers && EmptyEntry(Next(s, a).workers[w], k)
  {
    if a.Local? && a.w == w {
      InvariantLocal(s, w);
      assert s.workers[w].mem.Some? ==> StatusOK(s.workers[w].mem.value.status);
      hide Inv, LocalInv, LocalEnabled, LocalNext;
      LocalStepKeepsEmptyEntry(s.workers[w], a.step, k);
    } else {
      hide Inv;
      SharedStepKeepsEntry(s, a, w, k);
    }
  }

  lemma SharedStepKeepsEntry(s: State, a: Action, w: WorkerUid, k: Kind)
    requires Enabled(s, a) && w in s.workers && EmptyEntry(s.workers[w], k) && !(a.Local? && a.w == w)
    ensures w in Next(s, a).workers && EmptyEntry(Next(s, a).workers[w], k)
  {
    hide LocalEnabled, LocalNext;
  }

  /**
   * Such an entry is never resolved: over every run it stays, no resource of its kind ever exists,
   * and a finalizer that waits for the kind is never removed.
   */
  lemma {:induction false} EmptyEntryBlocksForever(s: State, log: seq<Action>, s': State, w: WorkerUid, k: Kind)
    requires Inv(s) && Reaches(s, log, s') && w in s.workers && EmptyEntry(s.workers[w], k)
    ensures w in s'.workers && EmptyEntry(s'.workers[w], k)
    decreases |log|
  {
    hide Inv, Enabled, Next;
    if log != [] {
      StepKeepsEmptyEntry(s, log[0], w, k);
      StepKeepsInvariant(s, log[0]);
      EmptyEntryBlocksForever(Next(s, log[0]), log[1..], s', w, k);
    }
  }

  /** A worker under the Retain policy that is being deleted keeps its entry as it is. */
  ghost predicate RetainedEntry(wk: Worker, k: Kind) {
    && wk.status.pendingCreate == Some(k) && wk.deleting && wk.policy.retainAll
    && (wk.mem.Some? ==> wk.mem.value.cleanup && wk.mem.value.status.pendingCreate == Some(k))
  }

  lemma LocalStepKeepsRetainedEntry(wk: Worker, a: LocalAction, k: Kind)
    requires LocalEnabled(wk, a) && RetainedEntry(wk, k)
    ensures RetainedEntry(LocalNext(wk, a), k)
  {
    hide Prerequisites, CanRefresh;
  }

  lemma StepKeepsRetainedEntry(s: State, a: Action, w: WorkerUid, k: Kind)
    requires Enabled(s, a) && w in s.workers && RetainedEntry(s.workers[w], k)
    ensures w in Next(s, a).workers && RetainedEntry(Next(s, a).workers[w], k)
  {
    hide LocalEnabled, LocalNext;
    if a.Local? && a.w == w {
      LocalStepKeepsRetainedEntry(s.workers[w], a.step, k);
    }
  }

  lemma {:induction false} RetainedEntryStays(s: State, log: seq<Action>, s': State, w: WorkerUid, k: Kind)
    requires Reaches(s, log, s') && w in s.workers && RetainedEntry(s.workers[w], k)
    ensures w in s'.workers && RetainedEntry(s'.workers[w], k)
    decreases |log|
  {
    hide Enabled, Next, RetainedEntry;
    if log != [] {
      StepKeepsRetainedEntry(s, log[0], w, k);
      RetainedEntryStays(Next(s, log[0]), log[1..], s', w, k);
    }
  }

  /** The same for a stored entry without a resource, seen while no reconcile runs. */
  lemma EntryWithoutResourceBlocksForever(s: State, log: seq<Action>, s': State, w: WorkerUid, k: Kind)
    requires Reachable(s) && Reaches(s, log, s') && w in s.workers && s.workers[w].mem == None
    requires s.workers[w].status.pendingCreate == Some(k) && AllGone(s.workers[w].cloud, {k})
    requires s.workers[w].finalizer == Held
    ensures w in s'.workers && s'.workers[w].status.pendingCreate == Some(k) && AllGone(s'.workers[w].cloud, {k})
    ensures k in DeletedKinds(s'.workers[w].policy) ==> s'.workers[w].finalizer != Removed
  {
    ReachableInvariant(s);
    hide Inv, Reaches;
    EmptyEntryBlocksForever(s, log, s', w, k);
  }

  // ---------- Cleanup ----------

  /** Once the finalizer is removed under the Delete policy, nothing of the worker is left. */
  lemma RemovedFinalizerLeavesNothing(s: State, w: WorkerUid)
    requires Reachable(s) && w in s.workers && s.workers[w].finalizer == Removed
    ensures forall i :: 0 <= i < |s.workers[w].cloud| ==>
              || s.workers[w].cloud[i].gone
              || (s.workers[w].cloud[i].kind == OSVolume && s.workers[w].policy.retainOSVolume)
    ensures forall u :: u in s.caches ==> w !in s.caches[u].refs
  {
    ReachableInvariant(s);
    assert LocalInv(s.workers[w]) && Linked(s.caches, s.images, w, s.workers[w]);
    forall u | u in s.caches ensures w !in s.caches[u].refs { assert !Refers(s.caches, u, w); }
  }

  /** No delete precedes the end of demand, and each one follows everything before it in the order. */
  lemma DeletesWaitForDemandAndOrder(s: State, w: WorkerUid, i: nat, j: nat)
    requires Reachable(s) && w in s.workers
    requires i < |s.workers[w].cloud| && s.workers[w].cloud[i].deleteRequested
    requires j < |s.workers[w].cloud|
    ensures !s.workers[w].demand
    ensures var late, early := s.workers[w].cloud[i].kind, s.workers[w].cloud[j].kind;
            (|| (early == Server && late != Server)
             || (early == DiscoveryVolume && (late == OSVolume || late == Port))
             || (early == OSVolume && late == Port && !s.workers[w].policy.retainOSVolume)) ==>
              s.workers[w].cloud[j].gone
  {
    ReachableInvariant(s);
    assert LocalInv(s.workers[w]);
  }

  lemma ReleaseFollowsDeletes(wk: Worker)
    requires LocalInv(wk) && Releasing(wk) && wk.mem.value.cleanup
    ensures !wk.demand && AllGone(wk.cloud, DeletedKinds(wk.policy))
  {}

  lemma OnlyReleaseTouchesImage(s: State, w: WorkerUid)
    requires || Enabled(s, DropReference(w)) || Enabled(s, DeleteImage(w))
             || Enabled(s, DeleteCache(w)) || Enabled(s, FinishRelease(w))
    ensures w in s.workers && Releasing(s.workers[w])
  {}

  /**
   * The image reference goes last: in cleanup, neither the reference nor the image nor the cache is
   * touched before demand is gone and everything that the policy deletes is gone.
   */
  lemma ImageReferenceGoesLast(s: State, w: WorkerUid)
    requires Reachable(s)
    requires || Enabled(s, DropReference(w)) || Enabled(s, DeleteImage(w))
             || Enabled(s, DeleteCache(w)) || Enabled(s, FinishRelease(w))
    requires s.workers[w].mem.value.cleanup
    ensures !s.workers[w].demand && AllGone(s.workers[w].cloud, DeletedKinds(s.workers[w].policy))
  {
    hide Enabled, LocalInv, Inv;
    OnlyReleaseTouchesImage(s, w);
    ReachableInvariant(s);
    InvariantLocal(s, w);
    ReleaseFollowsDeletes(s.workers[w]);
  }

  lemma NoDeleteWhileDemandExists(s: State, w: WorkerUid)
    requires Reachable(s) && w in s.workers && s.workers[w].demand
    ensures forall i :: 0 <= i < |s.workers[w].cloud| ==> !s.workers[w].cloud[i].deleteRequested
    ensures forall k, i :: !Enabled(s, Local(w, RequestDelete(k, i)))
  {
    ReachableInvariant(s);
    assert LocalInv(s.workers[w]);
  }

  // ---------- The shared image ----------

  /** An image delete is issued only for a tombstoned cache without references. */
  lemma ImageDeletedOnlyAfterTombstone(s: State, w: WorkerUid)
    requires Reachable(s) && Enabled(s, DeleteImage(w))
    ensures var u := s.workers[w].mem.value.view.uid;
            u in s.caches && s.caches[u].phase != Active && s.caches[u].refs == {}
  {
    ReachableInvariant(s);
    hide Inv, LocalInv, Linked, Shapes;
    InvariantParts(s, w);
    assert CacheOK(s, s.workers[w].mem.value.view.uid);
  }

  /** Caches change only by the four writes of acquire and release. */
  lemma OnlyCacheWritesChangeCaches(s: State, a: Action)
    requires Enabled(s, a) && !a.CreateCache? && !a.AddReference? && !a.DropReference? && !a.DeleteCache?
    ensures Next(s, a).caches == s.caches
  {}

  lemma ReferenceWriteKeepsTombstone(s: State, a: Action, u: CacheUid)
    requires Enabled(s, a) && (a.AddReference? || a.DropReference?)
    requires ViewOK(s.caches, a.w, s.workers[a.w].mem.value) && u in s.caches && s.caches[u].phase != Active
    ensures u in Next(s, a).caches && Next(s, a).caches[u].phase != Active
  {}

  ghost predicate ViewsOK(s: State) {
    forall w :: w in s.workers && s.workers[w].mem.Some? ==> ViewOK(s.caches, w, s.workers[w].mem.value)
  }

  lemma InvariantViews(s: State)
    requires Inv(s)
    ensures ViewsOK(s)
  {}

  lemma StepKeepsTombstone(s: State, a: Action, u: CacheUid)
    requires ViewsOK(s) && Enabled(s, a) && u in s.caches && s.caches[u].phase != Active
    ensures u in Next(s, a).caches && Next(s, a).caches[u].phase != Active
  {
    if a.AddReference? || a.DropReference? {
      ReferenceWriteKeepsTombstone(s, a, u);
    } else if !a.CreateCache? && !a.DeleteCache? {
      OnlyCacheWritesChangeCaches(s, a);
    }
  }

  /** No worker ever enters a cache again once it is tombstoned. */
  lemma {:induction false} TombstoneIsForever(s: State, log: seq<Action>, s': State, u: CacheUid)
    requires Inv(s) && Reaches(s, log, s') && u in s.caches && s.caches[u].phase != Active
    ensures u in s'.caches && s'.caches[u].phase != Active && s'.caches[u].refs == {}
    decreases |log|
  {
    if log == [] {
      assert CacheOK(s, u);
    } else {
      InvariantViews(s);
      StepKeepsTombstone(s, log[0], u);
      StepKeepsInvariant(s, log[0]);
      TombstoneIsForever(Next(s, log[0]), log[1..], s', u);
    }
  }

  lemma StepKeepsImage(s: State, a: Action, u: CacheUid)
    requires SharedOK(s) && Enabled(s, a) && u in s.caches && ImageExists(s.images, u)
    ensures var s' := Next(s, a); ImageExists(s'.images, u) || s.caches[u].phase != Active
  {
    assert ImageOK(s, u);
  }

  /** An image that a worker refers to still exists and is not being deleted. */
  lemma {:induction false} PinnedImageSurvives(s: State, log: seq<Action>, s': State, u: CacheUid, w: WorkerUid)
    requires Inv(s) && Reaches(s, log, s') && ImageExists(s.images, u) && Refers(s'.caches, u, w)
    ensures ImageExists(s'.images, u) && !s'.images[u].deleteRequested
    decreases |log|
  {
    assert ImageOK(s, u);
    if log == [] {
      assert CacheOK(s, u);
    } else {
      StepKeepsImage(s, log[0], u);
      StepKeepsInvariant(s, log[0]);
      var t := Next(s, log[0]);
      if !ImageExists(t.images, u) {
        TombstoneIsForever(s, log, s', u);
        assert false;
      }
      PinnedImageSurvives(t, log[1..], s', u, w);
    }
  }

  /** A discovery volume or server that still exists keeps the image it was built from. */
  lemma LiveVolumeKeepsItsImage(s: State, w: WorkerUid, i: nat)
    requires Reachable(s) && w in s.workers && i < |s.workers[w].cloud|
    requires s.workers[w].cloud[i].kind == DiscoveryVolume || s.workers[w].cloud[i].kind == Server
    requires !s.workers[w].cloud[i].gone
    ensures s.workers[w].status.imageID.Some?
    ensures var u := s.workers[w].status.imageID.value;
            Refers(s.caches, u, w) && ImageExists(s.images, u) && !s.images[u].deleteRequested
  {
    ReachableInvariant(s);
    assert Linked(s.caches, s.images, w, s.workers[w]);
    var u := s.workers[w].status.imageID.value;
    assert CacheOK(s, u) && ImageOK(s, u);
  }

  /** Whatever is uploaded has the digest that the owning cache is keyed by. */
  lemma UploadMatchesCacheKey(s: State, w: WorkerUid)
    requires Reachable(s) && Enabled(s, UploadImage(w))
    ensures var m := s.workers[w].mem.value;
            m.holding.value in s.caches && m.snapshot == Some(s.caches[m.holding.value].key.digest)
  {
    ReachableInvariant(s);
    assert LocalInv(s.workers[w]) && Linked(s.caches, s.images, w, s.workers[w]);
  }

  /** All workers that build from one image get the bytes named by its cache key. */
  lemma ImageContentMatchesCacheKey(s: State, u: CacheUid)
    requires Reachable(s) && u in s.images
    ensures u in s.caches
    ensures s.images[u].content.Some? ==> s.images[u].content.value == s.caches[u].key.digest
    ensures s.images[u].active ==> s.images[u].content.Some?
  {
    ReachableInvariant(s);
    assert ImageOK(s, u);
  }

  /** The error ImageCacheIdentityChanged is unreachable: the acquired cache owns the pinned image. */
  lemma ImageIdentityNeverChanges(s: State, w: WorkerUid)
    requires Reachable(s) && w in s.workers && Provisioning(s.workers[w])
    requires s.workers[w].mem.value.holding.Some? && s.workers[w].mem.value.status.imageID.Some?
    ensures s.workers[w].mem.value.status.imageID == s.workers[w].mem.value.holding
  {
    ReachableInvariant(s);
    assert Linked(s.caches, s.images, w, s.workers[w]);
  }

  // ---------- The refresh journal ----------

  /** While the refresh journal is stored or in memory, nothing was ever built from the image. */
  ghost predicate RefreshBuiltNothing(wk: Worker) {
    wk.status.phase == RefreshingDiscoveryImage
    || (wk.mem.Some? && wk.mem.value.status.phase == RefreshingDiscoveryImage) ==>
      NoneOfKind(wk.cloud, Server) && NoneOfKind(wk.cloud, DiscoveryVolume)
  }

  /** A refresh is entered only when everything in the cloud is recorded, and nothing built is. */
  lemma EnterRefreshFindsNothing(wk: Worker)
    requires LocalInv(wk) && LocalEnabled(wk, EnterRefresh)
    ensures NoneOfKind(wk.cloud, Server) && NoneOfKind(wk.cloud, DiscoveryVolume)
  {
    forall i | 0 <= i < |wk.cloud| ensures wk.cloud[i].kind != Server && wk.cloud[i].kind != DiscoveryVolume {
      assert Accounted(wk.cloud[i], i, false, wk.mem.value.status);
    }
  }

  lemma LocalStepKeepsUnbuilt(wk: Worker, a: LocalAction)
    requires LocalEnabled(wk, a) && RefreshBuiltNothing(wk)
    requires a.EnterRefresh? ==> NoneOfKind(wk.cloud, Server) && NoneOfKind(wk.cloud, DiscoveryVolume)
    requires wk.mem.Some? ==> ImageIdentityKept(wk)
    ensures RefreshBuiltNothing(LocalNext(wk, a))
  {
    hide Prerequisites, CanRefresh;
  }

  ghost predicate AllUnbuilt(s: State) {
    forall w :: w in s.workers ==> RefreshBuiltNothing(s.workers[w])
  }

  lemma SharedStepKeepsUnbuilt(s: State, a: Action, w: WorkerUid)
    requires Enabled(s, a) && w in Next(s, a).workers && !(a.Local? && a.w == w)
    requires w in s.workers ==> RefreshBuiltNothing(s.workers[w])
    ensures RefreshBuiltNothing(Next(s, a).workers[w])
  {
    hide LocalEnabled, LocalNext;
  }

  lemma StepKeepsUnbuilt(s: State, a: Action)
    requires Inv(s) && AllUnbuilt(s) && Enabled(s, a)
    ensures AllUnbuilt(Next(s, a))
  {
    forall w | w in Next(s, a).workers ensures RefreshBuiltNothing(Next(s, a).workers[w]) {
      if a.Local? && a.w == w {
        InvariantLocal(s, w);
        assert s.workers[w].mem.Some? ==> ImageIdentityKept(s.workers[w]);
        if a.step.EnterRefresh? {
          EnterRefreshFindsNothing(s.workers[w]);
        }
        hide Inv, LocalInv, LocalEnabled, LocalNext, ImageIdentityKept, RefreshBuiltNothing;
        LocalStepKeepsUnbuilt(s.workers[w], a.step);
      } else {
        hide Inv, Enabled, Next, RefreshBuiltNothing;
        OldWorkers(s, a, w);
        SharedStepKeepsUnbuilt(s, a, w);
      }
    }
  }

  lemma OldWorkers(s: State, a: Action, w: WorkerUid)
    requires Enabled(s, a) && w in Next(s, a).workers
    ensures w in s.workers || (a.AddWorker? && a.w == w)
  {
    hide LocalEnabled, LocalNext;
  }

  lemma {:induction false} RunKeepsUnbuilt(s: State, log: seq<Action>, s': State)
    requires Inv(s) && AllUnbuilt(s) && Reaches(s, log, s')
    ensures AllUnbuilt(s')
    decreases |log|
  {
    hide Inv, AllUnbuilt, Enabled, Next;
    if log != [] {
      StepKeepsInvariant(s, log[0]);
      StepKeepsUnbuilt(s, log[0]);
      RunKeepsUnbuilt(Next(s, log[0]), log[1..], s');
    }
  }

  /** While the refresh journal is durable, nothing was or will be built, also during deletion. */
  lemma RefreshJournalMeansNothingBuilt(s: State, w: WorkerUid)
    requires Reachable(s) && w in s.workers && s.workers[w].status.phase == RefreshingDiscoveryImage
    ensures var st := s.workers[w].status;
            && Server !in st.ids && DiscoveryVolume !in st.ids && st.pendingCreate == None
            && !st.agentKnown && !st.instanceCreated
    ensures NoneOfKind(s.workers[w].cloud, Server) && NoneOfKind(s.workers[w].cloud, DiscoveryVolume)
    ensures forall k, replied :: !Enabled(s, Local(w, Post(k, replied)))
  {
    var log :| Reaches(EMPTY, log, s);
    RunKeepsUnbuilt(EMPTY, log, s);
    ReachableInvariant(s);
    InvariantLocal(s, w);
    assert StatusOK(s.workers[w].status) && (s.workers[w].mem.Some? ==> ImageIdentityKept(s.workers[w]));
    hide Inv, LocalInv, Reaches;
  }

  /** The identity is cleared, everything else is kept, in one durable write. */
  ghost predicate RefreshCompleted(st: Status, st': Status) {
    st'.(phase := Progress) == Cleared(st) && st'.phase != RefreshingDiscoveryImage
  }

  lemma StepKeepsRefreshJournal(s: State, a: Action, w: WorkerUid)
    requires Enabled(s, a) && w in s.workers && LocalInv(s.workers[w])
    requires s.workers[w].status.phase == RefreshingDiscoveryImage
    requires !ClosedForCreates(s.workers[w])
    ensures w in Next(s, a).workers
    ensures var st := s.workers[w].status;
            var st' := Next(s, a).workers[w].status;
            st' == st || RefreshCompleted(st, st')
  {
    OnlyOwnWriteChangesStatus(s, a, w);
  }

  lemma OpenBefore(s: State, a: Action, w: WorkerUid)
    requires Enabled(s, a) && w in s.workers && ClosedForCreates(s.workers[w])
    ensures w in Next(s, a).workers && ClosedForCreates(Next(s, a).workers[w])
  {}

  lemma {:induction false} ClosedForever(s: State, log: seq<Action>, s': State, w: WorkerUid)
    requires Reaches(s, log, s') && w in s.workers && ClosedForCreates(s.workers[w])
    ensures w in s'.workers && ClosedForCreates(s'.workers[w])
    decreases |log|
  {
    if log != [] {
      OpenBefore(s, log[0], w);
      ClosedForever(Next(s, log[0]), log[1..], s', w);
    }
  }

  lemma InvariantLocal(s: State, w: WorkerUid)
    requires Inv(s) && w in s.workers
    ensures LocalInv(s.workers[w])
  {}

  /**
   * Outside deletion the refresh journal survives every error and restart: over any run it is
   * still stored unchanged, or some prefix of the run ended with the completing write.
   */
  lemma {:induction false} RefreshJournalSurvives(s: State, log: seq<Action>, s': State, w: WorkerUid)
    returns (n: nat, t: State)
    requires Inv(s) && Reaches(s, log, s') && w in s.workers
    requires s.workers[w].status.phase == RefreshingDiscoveryImage
    requires w in s'.workers && !ClosedForCreates(s'.workers[w])
    ensures n <= |log| && Reaches(s, log[..n], t) && w in t.workers
    ensures || (n == |log| && s'.workers[w].status == s.workers[w].status)
            || RefreshCompleted(s.workers[w].status, t.workers[w].status)
    decreases |log|
  {
    hide Inv, Enabled, Next, RefreshCompleted;
    if log == [] {
      n, t := 0, s;
      assert log[..0] == [];
    } else {
      assert !ClosedForCreates(s.workers[w]) by {
        if ClosedForCreates(s.workers[w]) {
          ClosedForever(s, log, s', w);
        }
      }
      var next := Next(s, log[0]);
      assert LocalInv(s.workers[w]) by { InvariantLocal(s, w); }
      StepKeepsRefreshJournal(s, log[0], w);
      StepKeepsInvariant(s, log[0]);
      if next.workers[w].status == s.workers[w].status {
        var m;
        m, t := RefreshJournalSurvives(next, log[1..], s', w);
        n := m + 1;
        assert log[..n][1..] == log[1..][..m] && log[..n][0] == log[0];
      } else {
        n, t := 1, next;
        assert log[..1][1..] == [] && log[..1][0] == log[0] && Run(next, []) == Some(next);
      }
    }
  }
}
