/** Every action keeps the link between workers, caches and images. */
module OpenStackLinks {
  import opened Common
  import opened OpenStackTypes
  import opened OpenStackWorker
  import opened OpenStackCache

  // ---------- Actions of one worker ----------

  /** What the link relies on: the shape of the two statuses and how they may differ. */
  ghost predicate Shapes(wk: Worker) {
    && StatusOK(wk.status) && (wk.finalizer == Removed ==> ClosedForCreates(wk))
    && (wk.mem.Some? ==>
          && StatusOK(wk.mem.value.status) && ImageIdentityKept(wk)
          && (wk.mem.value.cleanup ==> wk.deleting)
          && (wk.mem.value.holding.Some? ==> wk.mem.value.status.cacheName.Some? && !wk.mem.value.released)
          && (wk.mem.value.armed.Some? ==>
                wk.mem.value.status.pendingCreate == wk.status.pendingCreate == wk.mem.value.armed))
  }

  lemma LocalShapes(wk: Worker)
    requires LocalInv(wk)
    ensures Shapes(wk)
  {}

  /** Whatever is found before creates are over was journaled. */
  lemma FoundWasJournaled(wk: Worker, k: Kind, i: nat)
    requires LocalInv(wk) && LocalEnabled(wk, RecordFound(k, i))
    ensures wk.mem.value.status.pendingCreate == Some(k)
  {
    assert Accounted(wk.cloud[i], i, false, wk.mem.value.status);
  }

  lemma LocalLinkEnvironment(caches: Caches, images: Images, w: WorkerUid, wk: Worker, a: LocalAction)
    requires Linked(caches, images, w, wk) && LocalEnabled(wk, a)
    requires a.MarkDeleting? || a.DemandDisappears? || a.BecomesListed? || a.Vanishes? || a.RequestDelete?
    ensures Linked(caches, images, w, LocalNext(wk, a))
  {}

  lemma LocalLinkLifecycle(caches: Caches, images: Images, w: WorkerUid, wk: Worker, a: LocalAction)
    requires Shapes(wk) && Linked(caches, images, w, wk) && LocalEnabled(wk, a)
    requires a.AddFinalizer? || a.Start? || a.Stop? || a.ObserveDemandAbsent? || a.SetPhase? || a.RemoveFinalizer? ||
             a.RetainAndRelease?
    ensures Linked(caches, images, w, LocalNext(wk, a))
  {}

  lemma LocalLinkStatus(caches: Caches, images: Images, w: WorkerUid, wk: Worker)
    requires Shapes(wk) && Linked(caches, images, w, wk) && LocalEnabled(wk, StatusWritten)
    ensures Linked(caches, images, w, LocalNext(wk, StatusWritten))
  {}

  lemma LocalLinkJournal(caches: Caches, images: Images, w: WorkerUid, wk: Worker, a: LocalAction)
    requires Shapes(wk) && Linked(caches, images, w, wk) && LocalEnabled(wk, a)
    requires a.SetPending? || a.PostRejected? || a.RecordMAC? || a.RecordAgent?
    ensures Linked(caches, images, w, LocalNext(wk, a))
  {}

  /** Recording a journaled resource asks for nothing new. */
  lemma RecordingLinked(caches: Caches, images: Images, w: WorkerUid, wk: Worker, k: Kind, i: nat)
    requires wk.mem.Some? && wk.mem.value.status.pendingCreate == Some(k) && Linked(caches, images, w, wk)
    ensures Linked(caches, images, w, AfterRecording(wk, k, i))
  {}

  lemma LocalLinkRecordFound(caches: Caches, images: Images, w: WorkerUid, wk: Worker, k: Kind, i: nat)
    requires Linked(caches, images, w, wk) && LocalEnabled(wk, RecordFound(k, i))
    requires wk.mem.value.status.pendingCreate == Some(k)
    ensures Linked(caches, images, w, LocalNext(wk, RecordFound(k, i)))
  {
    hide Linked;
    RecordingLinked(caches, images, w, wk, k, i);
  }

  /** A journaled volume or server has its image and the reference on it. */
  lemma LostReplyLinked(caches: Caches, images: Images, w: WorkerUid, wk: Worker, k: Kind)
    requires Shapes(wk) && Linked(caches, images, w, wk) && Provisioning(wk) && wk.mem.value.armed == Some(k)
    ensures Linked(caches, images, w, AfterPost(wk, k, false))
  {}

  lemma LocalLinkPost(caches: Caches, images: Images, w: WorkerUid, wk: Worker, k: Kind, replied: bool)
    requires Shapes(wk) && Linked(caches, images, w, wk) && LocalEnabled(wk, Post(k, replied))
    ensures Linked(caches, images, w, LocalNext(wk, Post(k, replied)))
  {
    assert wk.mem.value.status.pendingCreate == Some(k);
    hide Linked, Shapes;
    LostReplyLinked(caches, images, w, wk, k);
    if replied {
      RecordingLinked(caches, images, w, AfterPost(wk, k, false), k, |wk.cloud|);
    }
  }

  lemma LocalLinkIdentity(caches: Caches, images: Images, w: WorkerUid, wk: Worker, a: LocalAction)
    requires Shapes(wk) && Linked(caches, images, w, wk) && LocalEnabled(wk, a)
    requires forall u, v :: Refers(caches, u, w) && Refers(caches, v, w) ==> u == v
    requires a.Download? || a.PinCacheName? || a.PinImageID?
    ensures Linked(caches, images, w, LocalNext(wk, a))
  {}

  lemma LocalLinkRefresh(caches: Caches, images: Images, w: WorkerUid, wk: Worker, a: LocalAction)
    requires Shapes(wk) && Linked(caches, images, w, wk) && LocalEnabled(wk, a)
    requires forall u, v :: Refers(caches, u, w) && Refers(caches, v, w) ==> u == v
    requires a.EnterRefresh? || a.ClearImageIdentity?
    ensures Linked(caches, images, w, LocalNext(wk, a))
  {}

  lemma LocalLinkCleanup(caches: Caches, images: Images, w: WorkerUid, wk: Worker, a: LocalAction)
    requires Shapes(wk) && Linked(caches, images, w, wk) && LocalEnabled(wk, a)
    requires a.BeginCleanup? || a.FoundNoResource? || a.GotNoResource? || a.ForgetPending?
    ensures Linked(caches, images, w, LocalNext(wk, a))
  {}

  /** Two caches with references have different names, so a worker refers to at most one. */
  lemma OneReference(s: State, w: WorkerUid)
    requires SharedOK(s) && w in s.workers && Linked(s.caches, s.images, w, s.workers[w])
    ensures forall u, v :: Refers(s.caches, u, w) && Refers(s.caches, v, w) ==> u == v
  {}

  lemma LocalStepLinked(s: State, w: WorkerUid, wk: Worker, a: LocalAction)
    requires Inv(s) && w in s.workers && s.workers[w] == wk && LocalEnabled(wk, a)
    ensures Inv(WithWorker(s, w, LocalNext(wk, a)))
  {
    hide LocalInv, LocalEnabled, LocalNext, Linked;
    LocalStepKeeps(wk, a);
    OneReference(s, w);
    LocalLink(s.caches, s.images, w, wk, a);
    SameSharedPart(s, WithWorker(s, w, LocalNext(wk, a)));
  }

  lemma LocalLink(caches: Caches, images: Images, w: WorkerUid, wk: Worker, a: LocalAction)
    requires LocalInv(wk) && Linked(caches, images, w, wk) && LocalEnabled(wk, a)
    requires forall u, v :: Refers(caches, u, w) && Refers(caches, v, w) ==> u == v
    ensures Linked(caches, images, w, LocalNext(wk, a))
  {
    LocalShapes(wk);
    if a.RecordFound? {
      FoundWasJournaled(wk, a.kind, a.id);
    }
    hide LocalInv, LocalEnabled, LocalNext, Linked, Shapes;
    if a.MarkDeleting? || a.DemandDisappears? || a.BecomesListed? || a.Vanishes? || a.RequestDelete? {
      LocalLinkEnvironment(caches, images, w, wk, a);
    } else if a.AddFinalizer? || a.Start? || a.Stop? || a.ObserveDemandAbsent? || a.SetPhase? || a.RemoveFinalizer? ||
              a.RetainAndRelease? {
      LocalLinkLifecycle(caches, images, w, wk, a);
    } else if a.StatusWritten? {
      LocalLinkStatus(caches, images, w, wk);
    } else if a.SetPending? || a.PostRejected? || a.RecordMAC? || a.RecordAgent? {
      LocalLinkJournal(caches, images, w, wk, a);
    } else if a.RecordFound? {
      LocalLinkRecordFound(caches, images, w, wk, a.kind, a.id);
    } else if a.Post? {
      LocalLinkPost(caches, images, w, wk, a.kind, a.replied);
    } else if a.BeginCleanup? || a.FoundNoResource? || a.GotNoResource? || a.ForgetPending? {
      LocalLinkCleanup(caches, images, w, wk, a);
    } else if a.EnterRefresh? || a.ClearImageIdentity? {
      LocalLinkRefresh(caches, images, w, wk, a);
    } else {
      LocalLinkIdentity(caches, images, w, wk, a);
    }
  }

  lemma SameSharedPart(s: State, s': State)
    requires SharedOK(s) && s'.caches == s.caches && s'.present == s.present && s'.images == s.images
    requires s.workers.Keys <= s'.workers.Keys
    ensures SharedOK(s')
  {}

  // ---------- Actions on the shared caches and images ----------

  /** How caches and images may change when worker w acts, as seen by everybody else. */
  ghost predicate Evolves(s: State, s': State, w: WorkerUid) {
    && (forall u :: u in s.caches ==>
          && u in s'.caches
          && s'.caches[u].key == s.caches[u].key
          && s.caches[u].version <= s'.caches[u].version
          && (s.caches[u].version == s'.caches[u].version ==>
                s'.caches[u].refs == s.caches[u].refs &&
                    (s'.caches[u].phase == Active <==> s.caches[u].phase == Active))
          && (s.caches[u].phase != Active ==> s'.caches[u].phase != Active)
          && s'.caches[u].refs - {w} == s.caches[u].refs - {w})
    && (forall u :: u in s'.caches && u !in s.caches ==> s'.caches[u].refs <= {w})
    && (forall u :: u in s'.caches && s'.caches[u].phase == Active && ImageExists(s.images, u) ==>
          ImageExists(s'.images, u))
    && (forall u :: u in s.caches && s.caches[u].phase != Active && !ImageExists(s.images, u) ==>
          !ImageExists(s'.images, u))
  }

  lemma OtherReferences(s: State, s': State, w: WorkerUid, x: WorkerUid)
    requires Evolves(s, s', w) && x != w
    ensures forall u :: Refers(s.caches, u, x) <==> Refers(s'.caches, u, x)
  {
    forall u
      ensures Refers(s.caches, u, x) <==> Refers(s'.caches, u, x)
    {
      if u in s.caches {
        assert x in s.caches[u].refs <==> x in s.caches[u].refs - {w};
        assert x in s'.caches[u].refs <==> x in s'.caches[u].refs - {w};
      }
    }
  }

  /** Nothing was built from an image that is being refreshed. */
  ghost predicate RefreshUnbuilt(wk: Worker) {
    && (wk.status.phase == RefreshingDiscoveryImage ==> !Requested(wk.status, DiscoveryVolume))
    && (wk.mem.Some? && wk.mem.value.status.phase == RefreshingDiscoveryImage ==>
          !Requested(wk.mem.value.status, DiscoveryVolume))
  }

  lemma LocalRefreshUnbuilt(wk: Worker)
    requires LocalInv(wk)
    ensures RefreshUnbuilt(wk)
  {
    LocalShapes(wk);
    hide LocalInv;
  }

  /** References of others stay, and whatever is referred to is active and keeps its image. */
  ghost predicate KeepsFor(s: State, s': State, x: WorkerUid) {
    && (forall u :: Refers(s.caches, u, x) <==> Refers(s'.caches, u, x))
    && (forall u :: Refers(s'.caches, u, x) ==>
          s'.caches[u].key == s.caches[u].key && (ImageExists(s.images, u) ==> ImageExists(s'.images, u)))
  }

  lemma EvolvesKeepsFor(s: State, s': State, w: WorkerUid, x: WorkerUid)
    requires Evolves(s, s', w) && SharedOK(s') && x != w
    ensures KeepsFor(s, s', x)
  {
    OtherReferences(s, s', w, x);
    forall u | Refers(s'.caches, u, x)
      ensures s'.caches[u].phase == Active
    {
      assert CacheOK(s', u);
    }
  }

  lemma StoredStaysLinked(s: State, s': State, x: WorkerUid, wk: Worker)
    requires KeepsFor(s, s', x) && RefreshUnbuilt(wk) && Linked(s.caches, s.images, x, wk)
    requires wk.mem.Some? ==> MemoryLinked(s'.caches, s'.images, x, wk)
    ensures Linked(s'.caches, s'.images, x, wk)
  {}

  lemma ViewStaysOK(s: State, s': State, w: WorkerUid, x: WorkerUid, m: Memory)
    requires Evolves(s, s', w) && KeepsFor(s, s', x) && ViewOK(s.caches, x, m)
    ensures ViewOK(s'.caches, x, m)
  {}

  lemma MemoryStaysLinked(s: State, s': State, w: WorkerUid, x: WorkerUid, wk: Worker)
    requires Evolves(s, s', w) && KeepsFor(s, s', x) && RefreshUnbuilt(wk)
    requires wk.mem.Some? && MemoryLinked(s.caches, s.images, x, wk)
    ensures MemoryLinked(s'.caches, s'.images, x, wk)
  {
    ViewStaysOK(s, s', w, x, wk.mem.value);
    hide ViewOK;
  }

  /** The link of every other worker survives. */
  lemma OthersStayLinked(s: State, s': State, w: WorkerUid, x: WorkerUid)
    requires Evolves(s, s', w) && SharedOK(s') && x != w
    requires x in s.workers && x in s'.workers && s'.workers[x] == s.workers[x]
    requires LocalInv(s.workers[x]) && Linked(s.caches, s.images, x, s.workers[x])
    ensures Linked(s'.caches, s'.images, x, s'.workers[x])
  {
    var wk := s.workers[x];
    hide LocalInv, SharedOK, Evolves, MemoryLinked, LiveBacked, KeepsFor, RefreshUnbuilt;
    EvolvesKeepsFor(s, s', w, x);
    LocalRefreshUnbuilt(wk);
    if wk.mem.Some? {
      MemoryStaysLinked(s, s', w, x, wk);
    }
    StoredStaysLinked(s, s', x, wk);
  }

  /** What remains to be shown for one action of w on the shared part. */
  lemma SharedStepLinked(s: State, s': State, w: WorkerUid, wk': Worker)
    requires Inv(s) && w in s.workers
    requires s'.workers == s.workers[w := wk']
    requires SharedOK(s') && Evolves(s, s', w)
    requires LocalInv(wk') && Linked(s'.caches, s'.images, w, wk')
    ensures Inv(s')
  {
    hide LocalInv, Linked, Evolves, SharedOK;
    forall x | x in s'.workers
      ensures LocalInv(s'.workers[x]) && Linked(s'.caches, s'.images, x, s'.workers[x])
    {
      if x != w {
        OthersStayLinked(s, s', w, x);
      }
    }
  }

  /** Observations and tokens may change freely as far as the worker alone is concerned. */
  lemma TokensKeepLocal(wk: Worker, m: Memory)
    requires LocalInv(wk) && wk.mem.Some?
    requires m == wk.mem.value.(view := m.view, holding := m.holding, ready := m.ready,
                                imageAbsent := m.imageAbsent, released := m.released)
    requires m.holding.Some? ==> m.status.cacheName.Some? && !m.released
    requires m.released && !m.cleanup && m.status.phase == RefreshingDiscoveryImage ==>
               wk.status.phase == RefreshingDiscoveryImage
    requires wk.mem.value.released ==> m.released
    ensures LocalInv(WithMem(wk, m))
  {}

  /** The same for the link, given what the new tokens are worth. */
  ghost predicate TokensLinked(caches: Caches, images: Images, w: WorkerUid, m: Memory) {
    && ViewOK(caches, w, m)
    && (m.released ==> forall u :: !Refers(caches, u, w))
    && (m.holding.Some? ==> !m.cleanup && Refers(caches, m.holding.value, w))
    && (m.ready.Some? ==> m.ready == m.holding && ImageExists(images, m.ready.value))
    && (m.imageAbsent.Some? ==>
          && m.imageAbsent.value in caches
          && caches[m.imageAbsent.value].phase != Active
          && !ImageExists(images, m.imageAbsent.value))
  }

  lemma LinkedTokens(caches: Caches, images: Images, w: WorkerUid, wk: Worker)
    requires wk.mem.Some? && Linked(caches, images, w, wk)
    ensures TokensLinked(caches, images, w, wk.mem.value)
  {
    hide ViewOK, LiveBacked, Pinned, Backed, Exclusive;
  }

  lemma TokensKeepLinked(caches: Caches, images: Images, w: WorkerUid, wk: Worker, m: Memory)
    requires wk.mem.Some? && Linked(caches, images, w, wk) && TokensLinked(caches, images, w, m)
    requires m == wk.mem.value.(view := m.view, holding := m.holding, ready := m.ready,
                                imageAbsent := m.imageAbsent, released := m.released)
    ensures Linked(caches, images, w, WithMem(wk, m))
  {
    hide ViewOK, Pinned, Backed, Exclusive;
  }

  /** A step that touches only tokens. */
  lemma TokenStepKeeps(s: State, w: WorkerUid, wk: Worker, m: Memory)
    requires Inv(s) && w in s.workers && s.workers[w] == wk && wk.mem.Some? && TokensLinked(s.caches, s.images, w, m)
    requires m == wk.mem.value.(view := m.view, holding := m.holding, ready := m.ready,
                                imageAbsent := m.imageAbsent, released := m.released)
    requires m.holding.Some? ==> m.status.cacheName.Some? && !m.released
    requires m.released && !m.cleanup && m.status.phase == RefreshingDiscoveryImage ==>
               wk.status.phase == RefreshingDiscoveryImage
    requires wk.mem.value.released ==> m.released
    ensures Inv(WithWorker(s, w, WithMem(wk, m)))
  {
    hide LocalInv, Linked, TokensLinked;
    TokensKeepLocal(wk, m);
    TokensKeepLinked(s.caches, s.images, w, wk, m);
    var s' := WithWorker(s, w, WithMem(wk, m));
    SameSharedPart(s, s');
    forall x | x in s'.workers
      ensures LocalInv(s'.workers[x]) && Linked(s'.caches, s'.images, x, s'.workers[x])
    {
      assert x != w ==> s'.workers[x] == s.workers[x];
    }
  }

  /** What the invariant says about one worker and the shared part. */
  lemma InvariantParts(s: State, w: WorkerUid)
    requires Inv(s) && w in s.workers
    ensures SharedOK(s) && LocalInv(s.workers[w]) && Shapes(s.workers[w])
    ensures Linked(s.caches, s.images, w, s.workers[w])
    ensures s.workers[w].mem.Some? ==>
              && MemoryLinked(s.caches, s.images, w, s.workers[w])
              && TokensLinked(s.caches, s.images, w, s.workers[w].mem.value)
  {
    LocalShapes(s.workers[w]);
    assert Linked(s.caches, s.images, w, s.workers[w]);
    hide LocalInv, Shapes, SharedOK, TokensLinked;
    if s.workers[w].mem.Some? {
      LinkedTokens(s.caches, s.images, w, s.workers[w]);
    }
  }

  lemma ReadNameIsOwnReference(s: State, w: WorkerUid, wk: Worker)
    requires SharedOK(s) && CanReadCache(wk) && MemoryLinked(s.caches, s.images, w, wk)
    ensures ViewOK(s.caches, w, wk.mem.value.(view := ReadName(s, wk.mem.value.status.cacheName.value)))
  {}

  lemma ReadCacheKeeps(s: State, w: WorkerUid, wk: Worker)
    requires Inv(s) && w in s.workers && s.workers[w] == wk && CanReadCache(wk)
    ensures Inv(DoReadCache(s, w, wk))
  {
    hide Inv, SharedOK, LocalInv, Linked, MemoryLinked, ViewOK;
    InvariantParts(s, w);
    ReadNameIsOwnReference(s, w, wk);
    TokenStepKeeps(s, w, wk, wk.mem.value.(view := ReadName(s, wk.mem.value.status.cacheName.value)));
  }

  lemma KeepReferenceKeeps(s: State, w: WorkerUid, wk: Worker)
    requires Inv(s) && w in s.workers && s.workers[w] == wk && CanKeepReference(w, wk)
    ensures Inv(DoKeepReference(s, w, wk))
  {
    hide Inv, SharedOK, LocalInv, Linked;
    InvariantParts(s, w);
    TokenStepKeeps(s, w, wk, wk.mem.value.(view := Unread, holding := Some(wk.mem.value.view.uid)));
  }

  lemma ObserveActiveKeeps(s: State, w: WorkerUid, wk: Worker)
    requires Inv(s) && w in s.workers && s.workers[w] == wk && CanObserveActive(s, wk)
    ensures Inv(DoObserveActive(s, w, wk))
  {
    hide Inv, SharedOK, LocalInv, Linked, MemoryLinked, ViewOK;
    InvariantParts(s, w);
    var m := wk.mem.value.(ready := wk.mem.value.holding);
    assert ViewOK(s.caches, w, m) by { SameView(s.caches, w, wk.mem.value, m); }
    TokenStepKeeps(s, w, wk, m);
  }

  lemma SameView(caches: Caches, w: WorkerUid, m: Memory, m': Memory)
    requires ViewOK(caches, w, m) && m'.view == m.view && m'.status == m.status && (m.released ==> m'.released)
    ensures ViewOK(caches, w, m')
  {}

  lemma ObserveImageAbsentKeeps(s: State, w: WorkerUid, wk: Worker)
    requires Inv(s) && w in s.workers && s.workers[w] == wk && CanObserveImageAbsent(s, wk)
    ensures Inv(DoObserveImageAbsent(s, w, wk))
  {
    hide Inv, SharedOK, LocalInv, Linked, MemoryLinked;
    InvariantParts(s, w);
    TokenStepKeeps(s, w, wk, wk.mem.value.(imageAbsent := Some(wk.mem.value.view.uid)));
  }

  lemma FinishedReleaseRefersNowhere(s: State, w: WorkerUid, wk: Worker)
    requires SharedOK(s) && CanFinishRelease(s, wk) && MemoryLinked(s.caches, s.images, w, wk)
    ensures forall u :: !Refers(s.caches, u, w)
  {}

  lemma FinishReleaseKeeps(s: State, w: WorkerUid, wk: Worker)
    requires Inv(s) && w in s.workers && s.workers[w] == wk && CanFinishRelease(s, wk)
    ensures Inv(DoFinishRelease(s, w, wk))
  {
    hide Inv, SharedOK, LocalInv, Linked, ViewOK;
    InvariantParts(s, w);
    FinishedReleaseRefersNowhere(s, w, wk);
    var m := wk.mem.value.(released := true);
    assert ViewOK(s.caches, w, m) by { SameView(s.caches, w, wk.mem.value, m); }
    TokenStepKeeps(s, w, wk, m);
  }

  lemma CreateCacheShared(s: State, w: WorkerUid, wk: Worker, u: CacheUid)
    requires SharedOK(s) && w in s.workers && CanCreateCache(s, wk, u)
    requires ViewOK(s.caches, w, wk.mem.value)
    ensures SharedOK(DoCreateCache(s, w, wk, u)) && Evolves(s, DoCreateCache(s, w, wk, u), w)
  {
    var s' := DoCreateCache(s, w, wk, u);
    forall v | v in s'.caches ensures CacheOK(s', v) { assert v in s.caches ==> CacheOK(s, v); }
    forall key | key in s'.present ensures PresentOK(s', key) { assert key in s.present ==> PresentOK(s, key); }
    forall v | v in s'.images ensures ImageOK(s', v) { assert v in s.images ==> ImageOK(s, v); }
  }

  lemma CreateCacheLinked(s: State, w: WorkerUid, wk: Worker, u: CacheUid)
    requires w in s.workers && CanCreateCache(s, wk, u) && Shapes(wk) && Linked(s.caches, s.images, w, wk)
    ensures var s' := DoCreateCache(s, w, wk, u); Linked(s'.caches, s'.images, w, s'.workers[w])
  {}

  lemma CreateCacheLocal(s: State, w: WorkerUid, wk: Worker, u: CacheUid)
    requires CanCreateCache(s, wk, u) && LocalInv(wk)
    ensures LocalInv(DoCreateCache(s, w, wk, u).workers[w])
  {
    hide LocalInv;
    TokensKeepLocal(wk, DoCreateCache(s, w, wk, u).workers[w].mem.value);
  }

  lemma CreateCacheKeeps(s: State, w: WorkerUid, wk: Worker, u: CacheUid)
    requires Inv(s) && w in s.workers && s.workers[w] == wk && CanCreateCache(s, wk, u)
    ensures Inv(DoCreateCache(s, w, wk, u))
  {
    hide Inv, SharedOK, LocalInv, Linked, Evolves, MemoryLinked;
    InvariantParts(s, w);
    CreateCacheShared(s, w, wk, u);
    CreateCacheLinked(s, w, wk, u);
    CreateCacheLocal(s, w, wk, u);
    SharedStepLinked(s, DoCreateCache(s, w, wk, u), w, DoCreateCache(s, w, wk, u).workers[w]);
  }

  lemma AddReferenceShared(s: State, w: WorkerUid, wk: Worker)
    requires SharedOK(s) && w in s.workers && CanAddReference(s, w, wk)
    requires ViewOK(s.caches, w, wk.mem.value)
    ensures SharedOK(DoAddReference(s, w, wk)) && Evolves(s, DoAddReference(s, w, wk), w)
  {
    var s' := DoAddReference(s, w, wk);
    forall v | v in s'.caches ensures CacheOK(s', v) { assert v in s.caches ==> CacheOK(s, v); }
    forall key | key in s'.present ensures PresentOK(s', key) { assert key in s.present ==> PresentOK(s, key); }
    forall v | v in s'.images ensures ImageOK(s', v) { assert v in s.images ==> ImageOK(s, v); }
  }

  lemma AddReferenceLinked(s: State, w: WorkerUid, wk: Worker)
    requires w in s.workers && CanAddReference(s, w, wk) && Shapes(wk) && Linked(s.caches, s.images, w, wk)
    ensures var s' := DoAddReference(s, w, wk); Linked(s'.caches, s'.images, w, s'.workers[w])
  {}

  lemma AddReferenceLocal(s: State, w: WorkerUid, wk: Worker)
    requires CanAddReference(s, w, wk) && LocalInv(wk)
    ensures LocalInv(DoAddReference(s, w, wk).workers[w])
  {
    hide LocalInv;
    TokensKeepLocal(wk, DoAddReference(s, w, wk).workers[w].mem.value);
  }

  lemma AddReferenceKeeps(s: State, w: WorkerUid, wk: Worker)
    requires Inv(s) && w in s.workers && s.workers[w] == wk && CanAddReference(s, w, wk)
    ensures Inv(DoAddReference(s, w, wk))
  {
    hide Inv, SharedOK, LocalInv, Linked, Evolves, MemoryLinked;
    InvariantParts(s, w);
    AddReferenceShared(s, w, wk);
    AddReferenceLinked(s, w, wk);
    AddReferenceLocal(s, w, wk);
    SharedStepLinked(s, DoAddReference(s, w, wk), w, DoAddReference(s, w, wk).workers[w]);
  }

  lemma DeleteCacheShared(s: State, w: WorkerUid, wk: Worker)
    requires SharedOK(s) && w in s.workers && CanDeleteCache(s, wk)
    requires MemoryLinked(s.caches, s.images, w, wk)
    ensures SharedOK(DoDeleteCache(s, w, wk)) && Evolves(s, DoDeleteCache(s, w, wk), w)
  {
    var s' := DoDeleteCache(s, w, wk);
    forall v | v in s'.caches ensures CacheOK(s', v) { assert v in s.caches ==> CacheOK(s, v); }
    forall key | key in s'.present ensures PresentOK(s', key) { assert key in s.present ==> PresentOK(s, key); }
    forall v | v in s'.images ensures ImageOK(s', v) { assert v in s.images ==> ImageOK(s, v); }
  }

  lemma DeleteCacheLinked(s: State, w: WorkerUid, wk: Worker)
    requires w in s.workers && CanDeleteCache(s, wk) && SharedOK(s) && Shapes(wk) && Linked(s.caches, s.images, w, wk)
    ensures var s' := DoDeleteCache(s, w, wk); Linked(s'.caches, s'.images, w, s'.workers[w])
  {
    TombstoneHolderRefersNowhere(s, w, wk);
    hide SharedOK, HoldsTombstone;
    assert forall u :: !Refers(DoDeleteCache(s, w, wk).caches, u, w);
  }

  lemma DeleteCacheLocal(s: State, w: WorkerUid, wk: Worker)
    requires CanDeleteCache(s, wk) && LocalInv(wk)
    requires wk.mem.value.cleanup ==> wk.mem.value.holding == None
    ensures LocalInv(DoDeleteCache(s, w, wk).workers[w])
  {
    hide LocalInv;
    TokensKeepLocal(wk, DoDeleteCache(s, w, wk).workers[w].mem.value);
  }

  lemma TombstoneHolderRefersNowhere(s: State, w: WorkerUid, wk: Worker)
    requires SharedOK(s) && CanDeleteCache(s, wk) && MemoryLinked(s.caches, s.images, w, wk)
    ensures forall u :: !Refers(s.caches, u, w)
  {
    assert CacheOK(s, wk.mem.value.view.uid);
  }

  lemma DeleteCacheKeeps(s: State, w: WorkerUid, wk: Worker)
    requires Inv(s) && w in s.workers && s.workers[w] == wk && CanDeleteCache(s, wk)
    ensures Inv(DoDeleteCache(s, w, wk))
  {
    hide Inv, SharedOK, LocalInv, Linked, Evolves, MemoryLinked;
    InvariantParts(s, w);
    DeleteCacheShared(s, w, wk);
    DeleteCacheLinked(s, w, wk);
    DeleteCacheLocal(s, w, wk);
    SharedStepLinked(s, DoDeleteCache(s, w, wk), w, DoDeleteCache(s, w, wk).workers[w]);
  }

  lemma CreateImageShared(s: State, w: WorkerUid, wk: Worker)
    requires SharedOK(s) && w in s.workers && CanCreateImage(s, wk)
    requires Shapes(wk) && MemoryLinked(s.caches, s.images, w, wk)
    ensures SharedOK(DoCreateImage(s, wk)) && Evolves(s, DoCreateImage(s, wk), w)
  {
    var s' := DoCreateImage(s, wk);
    forall v | v in s'.caches ensures CacheOK(s', v) { assert v in s.caches ==> CacheOK(s, v); }
    forall key | key in s'.present ensures PresentOK(s', key) { assert key in s.present ==> PresentOK(s, key); }
    forall v | v in s'.images ensures ImageOK(s', v) { assert v in s.images ==> ImageOK(s, v); }
  }

  lemma CreateImageLinked(s: State, w: WorkerUid, wk: Worker)
    requires w in s.workers && CanCreateImage(s, wk) && s.workers[w] == wk && SharedOK(s)
    requires Shapes(wk) && Linked(s.caches, s.images, w, wk)
    ensures Linked(DoCreateImage(s, wk).caches, DoCreateImage(s, wk).images, w, wk)
  {}

  lemma CreateImageKeeps(s: State, w: WorkerUid, wk: Worker)
    requires Inv(s) && w in s.workers && s.workers[w] == wk && CanCreateImage(s, wk)
    ensures Inv(DoCreateImage(s, wk))
  {
    hide Inv, SharedOK, LocalInv, Linked, Evolves, MemoryLinked;
    InvariantParts(s, w);
    CreateImageShared(s, w, wk);
    CreateImageLinked(s, w, wk);
    SharedStepLinked(s, DoCreateImage(s, wk), w, wk);
  }

  lemma UploadImageShared(s: State, w: WorkerUid, wk: Worker)
    requires SharedOK(s) && w in s.workers && CanUploadImage(s, wk)
    requires Shapes(wk) && MemoryLinked(s.caches, s.images, w, wk)
    ensures SharedOK(DoUploadImage(s, wk)) && Evolves(s, DoUploadImage(s, wk), w)
  {
    var s' := DoUploadImage(s, wk);
    forall v | v in s'.caches ensures CacheOK(s', v) { assert v in s.caches ==> CacheOK(s, v); }
    forall key | key in s'.present ensures PresentOK(s', key) { assert key in s.present ==> PresentOK(s, key); }
    forall v | v in s'.images ensures ImageOK(s', v) { assert v in s.images ==> ImageOK(s, v); }
  }

  lemma UploadImageLinked(s: State, w: WorkerUid, wk: Worker)
    requires w in s.workers && CanUploadImage(s, wk) && s.workers[w] == wk && SharedOK(s)
    requires Shapes(wk) && Linked(s.caches, s.images, w, wk)
    ensures Linked(DoUploadImage(s, wk).caches, DoUploadImage(s, wk).images, w, wk)
  {}

  lemma UploadImageKeeps(s: State, w: WorkerUid, wk: Worker)
    requires Inv(s) && w in s.workers && s.workers[w] == wk && CanUploadImage(s, wk)
    ensures Inv(DoUploadImage(s, wk))
  {
    hide Inv, SharedOK, LocalInv, Linked, Evolves, MemoryLinked;
    InvariantParts(s, w);
    UploadImageShared(s, w, wk);
    UploadImageLinked(s, w, wk);
    SharedStepLinked(s, DoUploadImage(s, wk), w, wk);
  }

  lemma DeleteImageShared(s: State, w: WorkerUid, wk: Worker)
    requires SharedOK(s) && w in s.workers && CanDeleteImage(s, wk)
    requires Shapes(wk) && MemoryLinked(s.caches, s.images, w, wk)
    ensures SharedOK(DoDeleteImage(s, wk)) && Evolves(s, DoDeleteImage(s, wk), w)
  {
    var s' := DoDeleteImage(s, wk);
    forall v | v in s'.caches ensures CacheOK(s', v) { assert v in s.caches ==> CacheOK(s, v); }
    forall key | key in s'.present ensures PresentOK(s', key) { assert key in s.present ==> PresentOK(s, key); }
    forall v | v in s'.images ensures ImageOK(s', v) { assert v in s.images ==> ImageOK(s, v); }
  }

  lemma DeleteImageLinked(s: State, w: WorkerUid, wk: Worker)
    requires w in s.workers && CanDeleteImage(s, wk) && s.workers[w] == wk && SharedOK(s)
    requires Shapes(wk) && Linked(s.caches, s.images, w, wk)
    ensures Linked(DoDeleteImage(s, wk).caches, DoDeleteImage(s, wk).images, w, wk)
  {}

  lemma DeleteImageKeeps(s: State, w: WorkerUid, wk: Worker)
    requires Inv(s) && w in s.workers && s.workers[w] == wk && CanDeleteImage(s, wk)
    ensures Inv(DoDeleteImage(s, wk))
  {
    hide Inv, SharedOK, LocalInv, Linked, Evolves, MemoryLinked;
    InvariantParts(s, w);
    DeleteImageShared(s, w, wk);
    DeleteImageLinked(s, w, wk);
    SharedStepLinked(s, DoDeleteImage(s, wk), w, wk);
  }

  lemma DropReferenceShared(s: State, w: WorkerUid, wk: Worker)
    requires SharedOK(s) && w in s.workers && CanDropReference(s, wk)
    requires ViewOK(s.caches, w, wk.mem.value)
    ensures SharedOK(DoDropReference(s, w, wk)) && Evolves(s, DoDropReference(s, w, wk), w)
  {
    var s' := DoDropReference(s, w, wk);
    forall v | v in s'.caches ensures CacheOK(s', v) { assert CacheOK(s, v); }
    forall key | key in s'.present ensures PresentOK(s', key) { assert PresentOK(s, key); }
    forall v | v in s'.images ensures ImageOK(s', v) { assert ImageOK(s, v); }
  }

  lemma DropReferenceLinked(s: State, w: WorkerUid, wk: Worker)
    requires w in s.workers && CanDropReference(s, wk) && Shapes(wk) && Linked(s.caches, s.images, w, wk)
    requires AllGone(wk.cloud, {DiscoveryVolume, Server})
    ensures var s' := DoDropReference(s, w, wk); Linked(s'.caches, s'.images, w, s'.workers[w])
  {
    var s' := DoDropReference(s, w, wk);
    forall u
      ensures !Refers(s'.caches, u, w)
    {
      assert u != wk.mem.value.view.uid ==> !Refers(s.caches, u, w);
    }
  }

  /** A release begins only when nothing built from the image exists any more. */
  lemma ReleaseFindsNothingBuilt(wk: Worker)
    requires LocalInv(wk) && Releasing(wk)
    ensures AllGone(wk.cloud, {DiscoveryVolume, Server})
  {
    forall i | 0 <= i < |wk.cloud| && wk.cloud[i].kind in {DiscoveryVolume, Server} ensures wk.cloud[i].gone {
      assert Accounted(wk.cloud[i], i, ClosedForCreates(wk), wk.mem.value.status);
    }
  }

  lemma DropReferenceLocal(s: State, w: WorkerUid, wk: Worker)
    requires CanDropReference(s, wk) && LocalInv(wk)
    requires wk.mem.value.cleanup ==> wk.mem.value.holding == None
    ensures LocalInv(DoDropReference(s, w, wk).workers[w])
  {
    hide LocalInv;
    TokensKeepLocal(wk, DoDropReference(s, w, wk).workers[w].mem.value);
  }

  lemma DropReferenceKeeps(s: State, w: WorkerUid, wk: Worker)
    requires Inv(s) && w in s.workers && s.workers[w] == wk && CanDropReference(s, wk)
    ensures Inv(DoDropReference(s, w, wk))
  {
    hide Inv, SharedOK, LocalInv, Linked, Evolves, MemoryLinked;
    InvariantParts(s, w);
    DropReferenceShared(s, w, wk);
    ReleaseFindsNothingBuilt(wk);
    DropReferenceLinked(s, w, wk);
    DropReferenceLocal(s, w, wk);
    SharedStepLinked(s, DoDropReference(s, w, wk), w, DoDropReference(s, w, wk).workers[w]);
  }

  /** Glance finishes an upload or a requested deletion. */
  ghost predicate GlanceMove(i: Image, i': Image) {
    && i'.content == i.content && i'.deleteRequested == i.deleteRequested
    && (i'.active ==> i.content.Some?)
    && (i'.gone ==> i.deleteRequested)
    && (i.gone ==> i'.gone)
  }

  lemma GlanceShared(s: State, u: CacheUid, i: Image)
    requires SharedOK(s) && u in s.images && GlanceMove(s.images[u], i)
    ensures SharedOK(s.(images := s.images[u := i]))
  {}

  lemma GlanceEvolves(s: State, u: CacheUid, i: Image, w: WorkerUid)
    requires SharedOK(s) && u in s.images && GlanceMove(s.images[u], i)
    ensures Evolves(s, s.(images := s.images[u := i]), w)
  {}

  lemma GlanceKeeps(s: State, u: CacheUid, i: Image)
    requires Inv(s) && u in s.images && GlanceMove(s.images[u], i)
    ensures Inv(s.(images := s.images[u := i]))
  {
    hide LocalInv, Linked, SharedOK, Evolves;
    var s' := s.(images := s.images[u := i]);
    GlanceShared(s, u, i);
    forall x | x in s'.workers
      ensures Linked(s'.caches, s'.images, x, s'.workers[x])
    {
      GlanceEvolves(s, u, i, x + 1);
      OthersStayLinked(s, s', x + 1, x);
    }
  }

  lemma AddWorkerKeeps(s: State, w: WorkerUid, policy: Policy)
    requires Inv(s) && w !in s.workers
    ensures Inv(WithWorker(s, w, NewWorker(policy)))
  {
    NewWorkerLinked(s, w, policy);
    hide LocalInv, Linked, SharedOK;
    SameSharedPart(s, WithWorker(s, w, NewWorker(policy)));
  }

  lemma NewWorkerLinked(s: State, w: WorkerUid, policy: Policy)
    requires SharedOK(s) && w !in s.workers
    ensures LocalInv(NewWorker(policy)) && Linked(s.caches, s.images, w, NewWorker(policy))
  {
    forall u
      ensures !Refers(s.caches, u, w)
    {
      assert u in s.caches ==> CacheOK(s, u);
    }
  }

  lemma SharedStepKeeps(s: State, a: Action)
    requires Inv(s) && Enabled(s, a)
    requires a.ReadCache? || a.CreateCache? || a.AddReference? || a.KeepReference? || a.CreateImage? ||
             a.UploadImage? || a.ObserveActive?
    ensures Inv(Next(s, a))
  {
    hide Inv;
    match a
    case ReadCache(w) => ReadCacheKeeps(s, w, s.workers[w]);
    case CreateCache(w, u) => CreateCacheKeeps(s, w, s.workers[w], u);
    case AddReference(w) => AddReferenceKeeps(s, w, s.workers[w]);
    case KeepReference(w) => KeepReferenceKeeps(s, w, s.workers[w]);
    case CreateImage(w) => CreateImageKeeps(s, w, s.workers[w]);
    case UploadImage(w) => UploadImageKeeps(s, w, s.workers[w]);
    case ObserveActive(w) => ObserveActiveKeeps(s, w, s.workers[w]);
  }

  lemma ReleaseStepKeeps(s: State, a: Action)
    requires Inv(s) && Enabled(s, a)
    requires a.DropReference? || a.ObserveImageAbsent? || a.DeleteImage? || a.DeleteCache? || a.FinishRelease?
    ensures Inv(Next(s, a))
  {
    hide Inv;
    match a
    case DropReference(w) => DropReferenceKeeps(s, w, s.workers[w]);
    case ObserveImageAbsent(w) => ObserveImageAbsentKeeps(s, w, s.workers[w]);
    case DeleteImage(w) => DeleteImageKeeps(s, w, s.workers[w]);
    case DeleteCache(w) => DeleteCacheKeeps(s, w, s.workers[w]);
    case FinishRelease(w) => FinishReleaseKeeps(s, w, s.workers[w]);
  }

  lemma EnvironmentStepKeepsShared(s: State, a: Action)
    requires Inv(s) && Enabled(s, a)
    requires a.AddWorker? || a.ImageBecomesActive? || a.ImageVanishes?
    ensures Inv(Next(s, a))
  {
    assert !a.AddWorker? ==> ImageOK(s, a.uid);
    hide Inv;
    match a
    case AddWorker(w, policy) => AddWorkerKeeps(s, w, policy);
    case ImageBecomesActive(u) => GlanceKeeps(s, u, s.images[u].(active := true));
    case ImageVanishes(u) => GlanceKeeps(s, u, s.images[u].(gone := true));
  }

  /** Every action of every worker, of the environment and of Glance keeps the invariant. */
  lemma StepKeepsInvariant(s: State, a: Action)
    requires Inv(s) && Enabled(s, a)
    ensures Inv(Next(s, a))
  {
    if a.Local? {
      LocalStepLinked(s, a.w, s.workers[a.w], a.step);
    } else if a.AddWorker? || a.ImageBecomesActive? || a.ImageVanishes? {
      EnvironmentStepKeepsShared(s, a);
    } else if a.DropReference? || a.ObserveImageAbsent? || a.DeleteImage? || a.DeleteCache? || a.FinishRelease? {
      ReleaseStepKeeps(s, a);
    } else {
      SharedStepKeeps(s, a);
    }
  }
}
