/**
 * Where progress fails. A worker that recorded a cache name but pinned no image can be held up in
 * cleanup for any number of rounds by others that use the same name in between. A worker whose
 * create is journaled without a resource of the kind is stuck for good.
 */
module OpenStackStarvation {
  import opened Common
  import opened OpenStackTypes
  import opened OpenStackWorker
  import opened OpenStackCache
  import opened OpenStackLinks
  import opened OpenStackRuns
  import opened OpenStackCleanup

  // ---------- Runs of the others ----------

  lemma OthersCons(s: State, w: WorkerUid, a: Action, log: seq<Action>, t: State)
    requires Enabled(s, a) && !TakenBy(a, w) && OthersRun(Next(s, a), w, log) == Some(t)
    ensures OthersRun(s, w, [a] + log) == Some(t)
  {
    hide Enabled, Next;
    assert ([a] + log)[1..] == log;
  }

  lemma {:induction false} OthersConcat(s: State, w: WorkerUid, x: seq<Action>, mid: State, y: seq<Action>, t: State)
    requires OthersRun(s, w, x) == Some(mid) && OthersRun(mid, w, y) == Some(t)
    ensures OthersRun(s, w, x + y) == Some(t)
    decreases |x|
  {
    hide Enabled, Next;
    if x == [] {
      assert x + y == y;
    } else {
      OthersConcat(Next(s, x[0]), w, x[1..], mid, y, t);
      assert (x + y)[1..] == x[1..] + y;
    }
  }

  lemma {:induction false} OthersReach(s: State, w: WorkerUid, log: seq<Action>, t: State)
    requires OthersRun(s, w, log) == Some(t)
    ensures Reaches(s, log, t)
    decreases |log|
  {
    hide Enabled, Next;
    if log != [] {
      OthersReach(Next(s, log[0]), w, log[1..], t);
    }
  }

  /** Steps of one other worker, on the worker alone. */
  function LocalRun(wk: Worker, steps: seq<LocalAction>): Option<Worker>
    decreases |steps|
  {
    if steps == [] then Some(wk)
    else if LocalEnabled(wk, steps[0]) then LocalRun(LocalNext(wk, steps[0]), steps[1..])
    else None
  }

  function Lift(x: WorkerUid, steps: seq<LocalAction>): seq<Action> {
    if steps == [] then [] else [Local(x, steps[0])] + Lift(x, steps[1..])
  }

  lemma {:induction false} LiftRuns(s: State, w: WorkerUid, x: WorkerUid, wk: Worker, steps: seq<LocalAction>,
                                    wk': Worker)
    requires x != w && LocalRun(wk, steps) == Some(wk')
    ensures OthersRun(WithWorker(s, x, wk), w, Lift(x, steps)) == Some(WithWorker(s, x, wk'))
    decreases |steps|
  {
    hide LocalEnabled, LocalNext, Enabled, Next, OthersRun;
    if steps == [] {
      NobodyActs(WithWorker(s, x, wk), w);
    } else {
      LocalStepAt(s, x, wk, steps[0]);
      LiftRuns(s, w, x, LocalNext(wk, steps[0]), steps[1..], wk');
      OthersCons(WithWorker(s, x, wk), w, Local(x, steps[0]), Lift(x, steps[1..]), WithWorker(s, x, wk'));
    }
  }

  lemma NobodyActs(s: State, w: WorkerUid)
    ensures OthersRun(s, w, []) == Some(s)
  {}

  /** A chain of worker records, one step from each to the next. */
  lemma {:induction false} ChainRuns(ws: seq<Worker>, steps: seq<LocalAction>)
    requires |ws| == |steps| + 1
    requires forall i {:trigger steps[i]} :: 0 <= i < |steps| ==>
               LocalEnabled(ws[i], steps[i]) && LocalNext(ws[i], steps[i]) == ws[i + 1]
    ensures LocalRun(ws[0], steps) == Some(ws[|steps|])
    decreases |steps|
  {
    hide LocalEnabled, LocalNext;
    if steps != [] {
      assert forall i :: 0 <= i < |steps| - 1 ==> steps[1..][i] == steps[i + 1];
      ChainRuns(ws[1..], steps[1..]);
      assert LocalNext(ws[0], steps[0]) == ws[1];
    }
  }

  // ---------- A worker up to the point where it prepares its image ----------

  const RIVAL_POLICY := Policy(false, false)

  const PORT_STATUS := EMPTY_STATUS.(ids := map[Port := 0], macKnown := true)
  const BLANK_STATUS := PORT_STATUS.(ids := map[Port := 0, OSVolume := 1])
  const PORT_CLOUD := [Resource(Port, false, false, false)]
  const BLANK_CLOUD := [Resource(Port, false, false, false), Resource(OSVolume, false, false, false)]

  function Builder(st: Status, cloud: seq<Resource>, mem: Option<Memory>): Worker {
    Worker(st, cloud, false, Held, true, RIVAL_POLICY, mem)
  }

  function Fresh(st: Status): Option<Memory> {
    Some(FreshMemory(st, false))
  }

  lemma StartStepsRun()
    ensures LocalRun(NewWorker(RIVAL_POLICY), [AddFinalizer, Start])
            == Some(Builder(EMPTY_STATUS, [], Fresh(EMPTY_STATUS)))
  {
    var wk := NewWorker(RIVAL_POLICY);
    var w1, w2 := Builder(EMPTY_STATUS, [], None), Builder(EMPTY_STATUS, [], Fresh(EMPTY_STATUS));
    assert LocalEnabled(wk, AddFinalizer) && LocalNext(wk, AddFinalizer) == w1;
    assert LocalEnabled(w1, Start) && LocalNext(w1, Start) == w2;
    hide LocalEnabled, LocalNext;
    ChainRuns([wk, w1, w2], [AddFinalizer, Start]);
  }

  const PORT_STEPS := [SetPending(Port), StatusWritten, Post(Port, true), RecordMAC, StatusWritten, Stop]

  /** The first reconcile journals, creates and records the port. */
  lemma PortStepsRun()
    ensures LocalRun(Builder(EMPTY_STATUS, [], Fresh(EMPTY_STATUS)), PORT_STEPS)
            == Some(Builder(PORT_STATUS, PORT_CLOUD, None))
  {
    var asked := EMPTY_STATUS.(pendingCreate := Some(Port));
    var recorded := EMPTY_STATUS.(ids := map[Port := 0]);
    var w0 := Builder(EMPTY_STATUS, [], Fresh(EMPTY_STATUS));
    var w1 := Builder(EMPTY_STATUS, [], Fresh(asked));
    var w2 := Builder(asked, [], Some(FreshMemory(asked, false).(armed := Some(Port))));
    var w3 := Builder(asked, PORT_CLOUD, Fresh(recorded));
    var w4 := Builder(asked, PORT_CLOUD, Fresh(PORT_STATUS));
    var w5 := Builder(PORT_STATUS, PORT_CLOUD, Fresh(PORT_STATUS));
    var w6 := Builder(PORT_STATUS, PORT_CLOUD, None);
    JournalSteps(EMPTY_STATUS, [], Port);
    PostStep(EMPTY_STATUS, [], Port);
    MACSteps();
    hide LocalEnabled, LocalNext, Builder;
    ChainRuns([w0, w1, w2, w3, w4, w5, w6], PORT_STEPS);
  }

  lemma MACSteps()
    ensures var asked := EMPTY_STATUS.(pendingCreate := Some(Port));
            var w3 := Builder(asked, PORT_CLOUD, Fresh(EMPTY_STATUS.(ids := map[Port := 0])));
            var w4 := Builder(asked, PORT_CLOUD, Fresh(PORT_STATUS));
            var w5 := Builder(PORT_STATUS, PORT_CLOUD, Fresh(PORT_STATUS));
            && LocalEnabled(w3, RecordMAC) && LocalNext(w3, RecordMAC) == w4
            && LocalEnabled(w4, StatusWritten) && LocalNext(w4, StatusWritten) == w5
            && LocalEnabled(w5, Stop) && LocalNext(w5, Stop) == Builder(PORT_STATUS, PORT_CLOUD, None)
  {}

  /** Journaling kind k: in memory, then stored. */
  lemma JournalSteps(st: Status, cloud: seq<Resource>, k: Kind)
    requires st.pendingCreate == None && k !in st.ids && Prerequisites(st, k) && st.phase == Progress
    requires k == Port || k == OSVolume
    ensures var asked := st.(pendingCreate := Some(k));
            var w1 := Builder(st, cloud, Fresh(asked));
            var w2 := Builder(asked, cloud, Some(FreshMemory(asked, false).(armed := Some(k))));
            && LocalEnabled(Builder(st, cloud, Fresh(st)), SetPending(k))
            && LocalNext(Builder(st, cloud, Fresh(st)), SetPending(k)) == w1
            && LocalEnabled(w1, StatusWritten) && LocalNext(w1, StatusWritten) == w2
  {}

  lemma PostStep(st: Status, cloud: seq<Resource>, k: Kind)
    requires st.pendingCreate == None && k != Server && st.phase == Progress
    ensures var asked := st.(pendingCreate := Some(k));
            var w2 := Builder(asked, cloud, Some(FreshMemory(asked, false).(armed := Some(k))));
            && LocalEnabled(w2, Post(k, true))
            && LocalNext(w2, Post(k, true))
               == Builder(asked, cloud + [Resource(k, false, false, false)], Fresh(st.(ids := st.ids[k := |cloud|])))
  {}

  const VOLUME_STEPS := [Start, SetPending(OSVolume), StatusWritten, Post(OSVolume, true)]

  /** The second reconcile journals, creates and records the OS volume, which is usable at once. */
  lemma VolumeStepsRun()
    ensures LocalRun(Builder(PORT_STATUS, PORT_CLOUD, None), VOLUME_STEPS)
            == Some(Builder(PORT_STATUS.(pendingCreate := Some(OSVolume)), BLANK_CLOUD, Fresh(BLANK_STATUS)))
  {
    var asked := PORT_STATUS.(pendingCreate := Some(OSVolume));
    var w0 := Builder(PORT_STATUS, PORT_CLOUD, None);
    var w1 := Builder(PORT_STATUS, PORT_CLOUD, Fresh(PORT_STATUS));
    var w2 := Builder(PORT_STATUS, PORT_CLOUD, Fresh(asked));
    var w3 := Builder(asked, PORT_CLOUD, Some(FreshMemory(asked, false).(armed := Some(OSVolume))));
    var w4 := Builder(asked, BLANK_CLOUD, Fresh(BLANK_STATUS));
    assert LocalEnabled(w0, Start) && LocalNext(w0, Start) == w1;
    JournalSteps(PORT_STATUS, PORT_CLOUD, OSVolume);
    PostStep(PORT_STATUS, PORT_CLOUD, OSVolume);
    assert PORT_STATUS.ids[OSVolume := 1] == BLANK_STATUS.ids;
    hide LocalEnabled, LocalNext;
    ChainRuns([w0, w1, w2, w3, w4], VOLUME_STEPS);
  }

  // ---------- A rival: creates cache and image under the name, and gives them up again ----------

  function NamedStatus(key: CacheKey): Status {
    BLANK_STATUS.(cacheName := Some(key), isoDigest := Some(key.digest))
  }

  function PinnedStatus(key: CacheKey, u: CacheUid): Status {
    NamedStatus(key).(imageID := Some(u))
  }

  function RefreshStatus(key: CacheKey, u: CacheUid): Status {
    PinnedStatus(key, u).(phase := RefreshingDiscoveryImage)
  }

  function Rival(st: Status, mem: Option<Memory>): Worker {
    Builder(st, BLANK_CLOUD, mem)
  }

  function NamedMemory(key: CacheKey): Memory {
    FreshMemory(NamedStatus(key), false).(snapshot := Some(key.digest))
  }

  function PinnedMemory(key: CacheKey, u: CacheUid): Memory {
    NamedMemory(key).(status := PinnedStatus(key, u), holding := Some(u))
  }

  function NameSteps(key: CacheKey): seq<LocalAction> {
    [Download(key.digest), PinCacheName(key), StatusWritten]
  }

  lemma NameStepsRun(key: CacheKey)
    ensures LocalRun(Builder(PORT_STATUS.(pendingCreate := Some(OSVolume)), BLANK_CLOUD, Fresh(BLANK_STATUS)),
            NameSteps(key))
         == Some(Rival(NamedStatus(key), Some(NamedMemory(key))))
  {
    var asked := PORT_STATUS.(pendingCreate := Some(OSVolume));
    var w0 := Builder(asked, BLANK_CLOUD, Fresh(BLANK_STATUS));
    var w1 := Builder(asked, BLANK_CLOUD, Some(FreshMemory(BLANK_STATUS, false).(snapshot := Some(key.digest))));
    var w2 := Builder(asked, BLANK_CLOUD, Some(NamedMemory(key)));
    var w3 := Rival(NamedStatus(key), Some(NamedMemory(key)));
    assert LocalEnabled(w0, Download(key.digest)) && LocalNext(w0, Download(key.digest)) == w1;
    assert LocalEnabled(w1, PinCacheName(key)) && LocalNext(w1, PinCacheName(key)) == w2;
    assert LocalEnabled(w2, StatusWritten) && LocalNext(w2, StatusWritten) == w3;
    hide LocalEnabled, LocalNext;
    ChainRuns([w0, w1, w2, w3], NameSteps(key));
  }

  lemma PinStepsRun(key: CacheKey, u: CacheUid)
    ensures LocalRun(Rival(NamedStatus(key), Some(NamedMemory(key).(holding := Some(u)))), [PinImageID, StatusWritten])
         == Some(Rival(PinnedStatus(key, u), Some(PinnedMemory(key, u))))
  {
    var wk := Rival(NamedStatus(key), Some(NamedMemory(key).(holding := Some(u))));
    var w1 := LocalNext(wk, PinImageID);
    var w2 := LocalNext(w1, StatusWritten);
    assert [PinImageID, StatusWritten][1..] == [StatusWritten] && [StatusWritten][1..] == [];
    assert LocalRun(w2, []) == Some(w2) && LocalRun(w1, [StatusWritten]) == Some(w2);
  }

  /** Restarted, the rival is served different bytes and enters the refresh journal. */
  function RefreshSteps(key: CacheKey): seq<LocalAction> {
    [Download(key.digest + 1), EnterRefresh, StatusWritten]
  }

  function RestartedMemory(key: CacheKey, u: CacheUid): Memory {
    FreshMemory(PinnedStatus(key, u), false)
  }

  function RefreshMemory(key: CacheKey, u: CacheUid): Memory {
    RestartedMemory(key, u).(holding := Some(u), snapshot := Some(key.digest + 1), status := RefreshStatus(key, u))
  }

  lemma RestartRuns(st: Status, m: Memory)
    ensures LocalRun(Rival(st, Some(m)), [Stop, Start]) == Some(Rival(st, Some(FreshMemory(st, false))))
  {
    var w1 := LocalNext(Rival(st, Some(m)), Stop);
    var w2 := LocalNext(w1, Start);
    assert [Stop, Start][1..] == [Start] && [Start][1..] == [];
    assert LocalRun(w2, []) == Some(w2) && LocalRun(w1, [Start]) == Some(w2);
  }

  lemma DownloadStep(key: CacheKey, u: CacheUid)
    ensures var wk := Rival(PinnedStatus(key, u), Some(RestartedMemory(key, u).(holding := Some(u))));
            var w1 := Rival(PinnedStatus(key, u), Some(RefreshMemory(key, u).(status := PinnedStatus(key, u))));
            LocalEnabled(wk, Download(key.digest + 1)) && LocalNext(wk, Download(key.digest + 1)) == w1
  {}

  lemma EnterRefreshSteps(key: CacheKey, u: CacheUid)
    ensures var w1 := Rival(PinnedStatus(key, u), Some(RefreshMemory(key, u).(status := PinnedStatus(key, u))));
            var w2 := Rival(PinnedStatus(key, u), Some(RefreshMemory(key, u)));
            && LocalEnabled(w1, EnterRefresh) && LocalNext(w1, EnterRefresh) == w2
            && LocalEnabled(w2, StatusWritten)
            && LocalNext(w2, StatusWritten) == Rival(RefreshStatus(key, u), Some(RefreshMemory(key, u)))
  {}

  lemma RefreshStepsRun(key: CacheKey, u: CacheUid)
    ensures LocalRun(Rival(PinnedStatus(key, u), Some(RestartedMemory(key, u).(holding := Some(u)))), RefreshSteps(key))
         == Some(Rival(RefreshStatus(key, u), Some(RefreshMemory(key, u))))
  {
    hide LocalEnabled, LocalNext, Rival, RefreshMemory, RestartedMemory;
    DownloadStep(key, u);
    EnterRefreshSteps(key, u);
    var steps := RefreshSteps(key);
    var w1 := Rival(PinnedStatus(key, u), Some(RefreshMemory(key, u).(status := PinnedStatus(key, u))));
    var w2 := Rival(PinnedStatus(key, u), Some(RefreshMemory(key, u)));
    var w3 := Rival(RefreshStatus(key, u), Some(RefreshMemory(key, u)));
    assert steps[2..][1..] == [] && LocalRun(w3, []) == Some(w3) && LocalRun(w2, steps[2..]) == Some(w3);
    assert steps[1..][1..] == steps[2..] && LocalRun(w1, steps[1..]) == Some(w3);
  }

  /** The cluster once cache u carries the name, with the given phase and image. */
  function Carrying(s: State, key: CacheKey, u: CacheUid, c: Cache): State {
    s.(caches := s.caches[u := c], present := s.present[key := u])
  }

  function WithImage(s: State, u: CacheUid, i: Image): State {
    s.(images := s.images[u := i])
  }

  /** The rival reads that nothing carries the name, and creates cache u. */
  lemma RivalCreatesCache(s: State, w: WorkerUid, x: WorkerUid, key: CacheKey, u: CacheUid)
    requires x != w && key !in s.present && u !in s.caches
    ensures OthersRun(WithWorker(s, x, Rival(NamedStatus(key), Some(NamedMemory(key)))), w,
            [ReadCache(x), CreateCache(x, u)])
         == Some(WithWorker(Carrying(s, key, u, Cache(key, 0, Active, {x})), x,
                            Rival(NamedStatus(key), Some(NamedMemory(key).(holding := Some(u))))))
  {
    hide LocalEnabled, LocalNext, OthersRun;
    var m := NamedMemory(key);
    var s0 := WithWorker(s, x, Rival(NamedStatus(key), Some(m)));
    var s1 := WithWorker(s, x, Rival(NamedStatus(key), Some(m.(view := Missing))));
    var s2 := WithWorker(Carrying(s, key, u, Cache(key, 0, Active, {x})), x,
        Rival(NamedStatus(key), Some(m.(holding := Some(u)))));
    assert Enabled(s0, ReadCache(x)) && Next(s0, ReadCache(x)) == s1;
    assert Enabled(s1, CreateCache(x, u)) && Next(s1, CreateCache(x, u)) == s2;
    NobodyActs(s2, w);
    OthersCons(s1, w, CreateCache(x, u), [], s2);
    OthersCons(s0, w, ReadCache(x), [CreateCache(x, u)] + [], s2);
    assert [ReadCache(x)] + ([CreateCache(x, u)] + []) == [ReadCache(x), CreateCache(x, u)];
  }

  lemma RivalCreatesImage(s: State, w: WorkerUid, x: WorkerUid, key: CacheKey, u: CacheUid)
    requires x != w && u !in s.images
    ensures OthersRun(WithWorker(s, x, Rival(PinnedStatus(key, u), Some(PinnedMemory(key, u)))), w, [CreateImage(x)])
         == Some(WithWorker(WithImage(s, u, Image(false, None, false, false)), x,
             Rival(PinnedStatus(key, u), Some(PinnedMemory(key, u)))))
  {
    hide LocalEnabled, LocalNext, OthersRun;
    var s0 := WithWorker(s, x, Rival(PinnedStatus(key, u), Some(PinnedMemory(key, u))));
    var s1 := WithWorker(WithImage(s, u, Image(false, None, false, false)), x,
        Rival(PinnedStatus(key, u), Some(PinnedMemory(key, u))));
    assert Enabled(s0, CreateImage(x)) && Next(s0, CreateImage(x)) == s1;
    NobodyActs(s1, w);
    OthersCons(s0, w, CreateImage(x), [], s1);
    assert [CreateImage(x)] + [] == [CreateImage(x)];
  }

  /** The restarted rival finds its own reference. */
  lemma RivalKeepsReference(s: State, w: WorkerUid, x: WorkerUid, key: CacheKey, u: CacheUid)
    requires x != w && key in s.present && s.present[key] == u && u in s.caches &&
             s.caches[u] == Cache(key, 0, Active, {x})
    ensures OthersRun(WithWorker(s, x, Rival(PinnedStatus(key, u), Some(RestartedMemory(key, u)))), w,
            [ReadCache(x), KeepReference(x)])
         == Some(WithWorker(s, x, Rival(PinnedStatus(key, u), Some(RestartedMemory(key, u).(holding := Some(u))))))
  {
    hide LocalEnabled, LocalNext, OthersRun;
    var m := RestartedMemory(key, u);
    var s0 := WithWorker(s, x, Rival(PinnedStatus(key, u), Some(m)));
    var s1 := WithWorker(s, x, Rival(PinnedStatus(key, u), Some(m.(view := Seen(u, 0, true, {x})))));
    var s2 := WithWorker(s, x, Rival(PinnedStatus(key, u), Some(m.(holding := Some(u)))));
    assert Enabled(s0, ReadCache(x)) && Next(s0, ReadCache(x)) == s1;
    assert Enabled(s1, KeepReference(x)) && Next(s1, KeepReference(x)) == s2;
    NobodyActs(s2, w);
    OthersCons(s1, w, KeepReference(x), [], s2);
    OthersCons(s0, w, ReadCache(x), [KeepReference(x)] + [], s2);
    assert [ReadCache(x)] + ([KeepReference(x)] + []) == [ReadCache(x), KeepReference(x)];
  }

  /** Holding the last reference, the rival leaves a tombstone. */
  lemma RivalTombstones(s: State, w: WorkerUid, x: WorkerUid, key: CacheKey, u: CacheUid)
    requires x != w && key in s.present && s.present[key] == u && u in s.caches &&
             s.caches[u] == Cache(key, 0, Active, {x})
    ensures OthersRun(WithWorker(s, x,
            Rival(RefreshStatus(key, u), Some(FreshMemory(RefreshStatus(key, u), false)))), w,
                      [ReadCache(x), DropReference(x), Local(x, Stop)])
         == Some(WithWorker(Carrying(s, key, u, Cache(key, 1, Tombstoned, {})), x, Rival(RefreshStatus(key, u), None)))
  {
    hide OthersRun;
    var st := RefreshStatus(key, u);
    var m := FreshMemory(st, false);
    var tombstoned := Carrying(s, key, u, Cache(key, 1, Tombstoned, {}));
    var s0 := WithWorker(s, x, Rival(st, Some(m)));
    var s1 := WithWorker(s, x, Rival(st, Some(m.(view := Seen(u, 0, true, {x})))));
    var s2 := WithWorker(tombstoned, x, Rival(st, Some(m)));
    var s3 := WithWorker(tombstoned, x, Rival(st, None));
    RivalReads(s, x, key, u);
    RivalDrops(s, x, key, u);
    StopStep(Rival(st, Some(m)));
    hide Enabled, Next, LocalEnabled, LocalNext;
    LocalStepAt(tombstoned, x, Rival(st, Some(m)), Stop);
    NobodyActs(s3, w);
    OthersCons(s2, w, Local(x, Stop), [], s3);
    OthersCons(s1, w, DropReference(x), [Local(x, Stop)] + [], s3);
    OthersCons(s0, w, ReadCache(x), [DropReference(x)] + ([Local(x, Stop)] + []), s3);
    assert [ReadCache(x)] + ([DropReference(x)] + ([Local(x, Stop)] + []))
           == [ReadCache(x), DropReference(x), Local(x, Stop)];
  }

  lemma RivalReads(s: State, x: WorkerUid, key: CacheKey, u: CacheUid)
    requires key in s.present && s.present[key] == u && u in s.caches
    ensures var m := FreshMemory(RefreshStatus(key, u), false);
            var s0 := WithWorker(s, x, Rival(RefreshStatus(key, u), Some(m)));
            var c := s.caches[u];
            && Enabled(s0, ReadCache(x))
            && Next(s0, ReadCache(x))
               == WithWorker(s, x,
                   Rival(RefreshStatus(key, u), Some(m.(view := Seen(u, c.version, c.phase == Active, c.refs)))))
  {
    hide LocalEnabled, LocalNext;
  }

  lemma RivalDrops(s: State, x: WorkerUid, key: CacheKey, u: CacheUid)
    requires key in s.present && s.present[key] == u && u in s.caches && s.caches[u] == Cache(key, 0, Active, {x})
    ensures var m := FreshMemory(RefreshStatus(key, u), false);
            var s1 := WithWorker(s, x, Rival(RefreshStatus(key, u), Some(m.(view := Seen(u, 0, true, {x})))));
            && Enabled(s1, DropReference(x))
            && Next(s1, DropReference(x))
               == WithWorker(Carrying(s, key, u, Cache(key, 1, Tombstoned, {})), x,
                   Rival(RefreshStatus(key, u), Some(m)))
  {
    hide LocalEnabled, LocalNext;
    assert s.present[key := u] == s.present;
  }

  /** The cluster after a rival x used the name through cache u: a tombstone with its image. */
  function AfterRival(s: State, x: WorkerUid, key: CacheKey, u: CacheUid): State {
    State(s.workers[x := Rival(RefreshStatus(key, u), None)],
          s.caches[u := Cache(key, 1, Tombstoned, {})],
          s.present[key := u],
          s.images[u := Image(false, None, false, false)])
  }

  lemma {:induction false} LocalConcat(wk: Worker, x: seq<LocalAction>, mid: Worker, y: seq<LocalAction>, wk': Worker)
    requires LocalRun(wk, x) == Some(mid) && LocalRun(mid, y) == Some(wk')
    ensures LocalRun(wk, x + y) == Some(wk')
    decreases |x|
  {
    hide LocalEnabled, LocalNext;
    if x == [] {
      assert x + y == y;
    } else {
      LocalConcat(LocalNext(wk, x[0]), x[1..], mid, y, wk');
      assert (x + y)[1..] == x[1..] + y;
    }
  }

  /** From its creation a worker comes to record port, OS volume and the cache name. */
  function BuildSteps(key: CacheKey): seq<LocalAction> {
    [AddFinalizer, Start] + PORT_STEPS + VOLUME_STEPS + NameSteps(key)
  }

  lemma BuildStepsRun(key: CacheKey)
    ensures LocalRun(NewWorker(RIVAL_POLICY), BuildSteps(key)) == Some(Rival(NamedStatus(key), Some(NamedMemory(key))))
  {
    hide LocalRun, Builder, Rival;
    var wk := NewWorker(RIVAL_POLICY);
    var w1 := Builder(EMPTY_STATUS, [], Fresh(EMPTY_STATUS));
    var w2 := Builder(PORT_STATUS, PORT_CLOUD, None);
    var w3 := Builder(PORT_STATUS.(pendingCreate := Some(OSVolume)), BLANK_CLOUD, Fresh(BLANK_STATUS));
    StartStepsRun();
    PortStepsRun();
    LocalConcat(wk, [AddFinalizer, Start], w1, PORT_STEPS, w2);
    VolumeStepsRun();
    LocalConcat(wk, [AddFinalizer, Start] + PORT_STEPS, w2, VOLUME_STEPS, w3);
    NameStepsRun(key);
    LocalConcat(wk, [AddFinalizer, Start] + PORT_STEPS + VOLUME_STEPS, w3, NameSteps(key),
                Rival(NamedStatus(key), Some(NamedMemory(key))));
  }

  lemma RivalStarts(s: State, w: WorkerUid, x: WorkerUid, key: CacheKey) returns (log: seq<Action>)
    requires x != w && x !in s.workers
    ensures OthersRun(s, w, log) == Some(WithWorker(s, x, Rival(NamedStatus(key), Some(NamedMemory(key)))))
  {
    hide OthersRun, LocalRun, LocalEnabled, LocalNext;
    var s0 := WithWorker(s, x, NewWorker(RIVAL_POLICY));
    var s1 := WithWorker(s, x, Rival(NamedStatus(key), Some(NamedMemory(key))));
    BuildStepsRun(key);
    LiftRuns(s, w, x, NewWorker(RIVAL_POLICY), BuildSteps(key), s1.workers[x]);
    assert Enabled(s, AddWorker(x, RIVAL_POLICY)) && Next(s, AddWorker(x, RIVAL_POLICY)) == s0;
    OthersCons(s, w, AddWorker(x, RIVAL_POLICY), Lift(x, BuildSteps(key)), s1);
    log := [AddWorker(x, RIVAL_POLICY)] + Lift(x, BuildSteps(key));
  }

  /** The rival pins the image of its cache and creates it. */
  lemma RivalBuilds(s: State, w: WorkerUid, x: WorkerUid, key: CacheKey, u: CacheUid) returns (log: seq<Action>)
    requires x != w && x !in s.workers && key !in s.present && u !in s.caches && u !in s.images
    ensures var sc := Carrying(s, key, u, Cache(key, 0, Active, {x}));
            OthersRun(s, w, log)
            == Some(WithWorker(WithImage(sc, u, Image(false, None, false, false)), x,
                Rival(PinnedStatus(key, u), Some(PinnedMemory(key, u)))))
  {
    hide OthersRun, LocalRun, LocalEnabled, LocalNext, Enabled, Next;
    var sc := Carrying(s, key, u, Cache(key, 0, Active, {x}));
    var s1 := WithWorker(s, x, Rival(NamedStatus(key), Some(NamedMemory(key))));
    var s2 := WithWorker(sc, x, Rival(NamedStatus(key), Some(NamedMemory(key).(holding := Some(u)))));
    var s3 := WithWorker(sc, x, Rival(PinnedStatus(key, u), Some(PinnedMemory(key, u))));
    var s4 := WithWorker(WithImage(sc, u, Image(false, None, false, false)), x, s3.workers[x]);
    log := RivalStarts(s, w, x, key);
    RivalCreatesCache(s, w, x, key, u);
    OthersConcat(s, w, log, s1, [ReadCache(x), CreateCache(x, u)], s2);
    log := log + [ReadCache(x), CreateCache(x, u)];
    PinStepsRun(key, u);
    LiftRuns(sc, w, x, s2.workers[x], [PinImageID, StatusWritten], s3.workers[x]);
    OthersConcat(s, w, log, s2, Lift(x, [PinImageID, StatusWritten]), s3);
    log := log + Lift(x, [PinImageID, StatusWritten]);
    RivalCreatesImage(sc, w, x, key, u);
    OthersConcat(s, w, log, s3, [CreateImage(x)], s4);
    log := log + [CreateImage(x)];
  }

  /** After a restart the rival refreshes its image and so gives up the cache. */
  lemma RivalGivesUp(s: State, w: WorkerUid, x: WorkerUid, key: CacheKey, u: CacheUid) returns (log: seq<Action>)
    requires x != w && key in s.present && s.present[key] == u && u in s.caches &&
             s.caches[u] == Cache(key, 0, Active, {x})
    ensures OthersRun(WithWorker(s, x, Rival(PinnedStatus(key, u), Some(PinnedMemory(key, u)))), w, log)
         == Some(WithWorker(Carrying(s, key, u, Cache(key, 1, Tombstoned, {})), x, Rival(RefreshStatus(key, u), None)))
  {
    hide OthersRun, LocalRun, LocalEnabled, LocalNext, Enabled, Next;
    var s0 := WithWorker(s, x, Rival(PinnedStatus(key, u), Some(PinnedMemory(key, u))));
    var s1 := WithWorker(s, x, Rival(PinnedStatus(key, u), Some(RestartedMemory(key, u))));
    var s2 := WithWorker(s, x, Rival(PinnedStatus(key, u), Some(RestartedMemory(key, u).(holding := Some(u)))));
    var s3 := WithWorker(s, x, Rival(RefreshStatus(key, u), Some(RefreshMemory(key, u))));
    var s4 := WithWorker(s, x, Rival(RefreshStatus(key, u), Some(FreshMemory(RefreshStatus(key, u), false))));
    var t := WithWorker(Carrying(s, key, u, Cache(key, 1, Tombstoned, {})), x, Rival(RefreshStatus(key, u), None));
    RestartRuns(PinnedStatus(key, u), PinnedMemory(key, u));
    LiftRuns(s, w, x, s0.workers[x], [Stop, Start], s1.workers[x]);
    log := Lift(x, [Stop, Start]);
    RivalKeepsReference(s, w, x, key, u);
    OthersConcat(s0, w, log, s1, [ReadCache(x), KeepReference(x)], s2);
    log := log + [ReadCache(x), KeepReference(x)];
    RefreshStepsRun(key, u);
    LiftRuns(s, w, x, s2.workers[x], RefreshSteps(key), s3.workers[x]);
    OthersConcat(s0, w, log, s2, Lift(x, RefreshSteps(key)), s3);
    log := log + Lift(x, RefreshSteps(key));
    RestartRuns(RefreshStatus(key, u), RefreshMemory(key, u));
    LiftRuns(s, w, x, s3.workers[x], [Stop, Start], s4.workers[x]);
    OthersConcat(s0, w, log, s3, Lift(x, [Stop, Start]), s4);
    log := log + Lift(x, [Stop, Start]);
    RivalTombstones(s, w, x, key, u);
    OthersConcat(s0, w, log, s4, [ReadCache(x), DropReference(x), Local(x, Stop)], t);
    log := log + [ReadCache(x), DropReference(x), Local(x, Stop)];
  }

  /** A fresh rival leaves a tombstone with its image under a free name. */
  lemma RivalRuns(s: State, w: WorkerUid, x: WorkerUid, key: CacheKey, u: CacheUid) returns (log: seq<Action>)
    requires x != w && x !in s.workers && key !in s.present && u !in s.caches && u !in s.images
    ensures OthersRun(s, w, log) == Some(AfterRival(s, x, key, u))
  {
    hide OthersRun, Rival, PinnedStatus, PinnedMemory, RefreshStatus;
    var si := WithImage(Carrying(s, key, u, Cache(key, 0, Active, {x})), u, Image(false, None, false, false));
    var mid := WithWorker(si, x, Rival(PinnedStatus(key, u), Some(PinnedMemory(key, u))));
    var t := AfterRival(s, x, key, u);
    log := RivalBuilds(s, w, x, key, u);
    var more := RivalGivesUp(si, w, x, key, u);
    assert WithWorker(Carrying(si, key, u, Cache(key, 1, Tombstoned, {})), x,
           Rival(RefreshStatus(key, u), None)) == t by {
      assert s.caches[u := Cache(key, 0, Active, {x})][u := Cache(key, 1, Tombstoned, {})] == t.caches;
    }
    OthersConcat(s, w, log, mid, more, t);
    log := log + more;
  }

  // ---------- The held-up reconcile ----------

  lemma {:induction false} AbsentRuns(s: State, w: WorkerUid, n: nat, t: State)
    requires w in s.workers && Cleanable(s.workers[w]) && LocalInv(s.workers[w])
    requires n <= |DeletionOrder(s.workers[w].policy)| && AllGone(s.workers[w].cloud, DeletedKinds(s.workers[w].policy))
    requires Reaches(During(s, w, ReleaseMemory(s.workers[w])), ReleaseLog(s, w), t)
    ensures Reaches(During(s, w, CleanupMemory(s.workers[w], Earlier(s.workers[w].policy, n))), DeletionLog(s, w, n), t)
    decreases |DeletionOrder(s.workers[w].policy)| - n
  {
    hide Enabled, Next, Reaches, Run, ReleaseLog, LocalInv, Earlier, LocalEnabled, LocalNext, Cleanable;
    var wk := s.workers[w];
    OrderIsProtocolOrder(wk.policy, n);
    if n < |DeletionOrder(wk.policy)| {
      var k := DeletionOrder(wk.policy)[n];
      assert FindLive(wk.cloud, k).None?;
      AbsenceStep(wk, Earlier(wk.policy, n), k);
      var a := if k in wk.status.ids then GotNoResource(k) else FoundNoResource(k);
      NextLocal(s, w, CleanupMemory(wk, Earlier(wk.policy, n)), a, CleanupMemory(wk, Earlier(wk.policy, n + 1)));
      AbsentRuns(s, w, n + 1, t);
      RunCons(During(s, w, CleanupMemory(wk, Earlier(wk.policy, n))), Local(w, a), DeletionLog(s, w, n + 1), t);
    }
  }

  /** A reconcile that finds the tombstone of the name deletes its image and returns. */
  lemma HeldUpPass(s: State, w: WorkerUid, u: CacheUid)
    requires AtOwnCache(s, w, u) && s.caches[u].phase != Active && ImageExists(s.images, u)
    requires LocalInv(s.workers[w]) && AllGone(s.workers[w].cloud, DeletedKinds(s.workers[w].policy))
    ensures Reaches(s, CleanupLog(s, w), WithWorker(ImageGone(s, u), w, Rested(s.workers[w])))
  {
    hide Enabled, Next, Reaches, Run, LocalInv, DeletionLog, ReleaseLog;
    var t := OwnCacheRuns(s, w, u);
    AbsentRuns(s, w, 0, t);
    assert Earlier(s.workers[w].policy, 0) == {};
    OpeningRuns(s, w, DeletionLog(s, w, 0), t);
  }

  // ---------- The rival frees the name again ----------

  lemma RivalSeesNoImage(s: State, x: WorkerUid, key: CacheKey, u: CacheUid)
    requires u in s.caches && s.caches[u].phase != Active && !ImageExists(s.images, u)
    ensures var st := RefreshStatus(key, u);
            var m := FreshMemory(st, false).(view := Seen(u, s.caches[u].version, false, s.caches[u].refs));
            var s1 := WithWorker(s, x, Rival(st, Some(m)));
            && Enabled(s1, ObserveImageAbsent(x))
            && Next(s1, ObserveImageAbsent(x)) == WithWorker(s, x, Rival(st, Some(m.(imageAbsent := Some(u)))))
  {
    hide LocalEnabled, LocalNext;
  }

  lemma RivalDeletes(s: State, x: WorkerUid, key: CacheKey, u: CacheUid)
    requires key in s.present && s.present[key] == u && u in s.caches && s.caches[u].phase != Active
    ensures var st := RefreshStatus(key, u);
            var m := FreshMemory(st, false).(view := Seen(u, s.caches[u].version, false, s.caches[u].refs),
                                             imageAbsent := Some(u));
            var s1 := WithWorker(s, x, Rival(st, Some(m)));
            var freed := s.(present := s.present - {key}, caches := s.caches[u := s.caches[u].(phase := Collected)]);
            && Enabled(s1, DeleteCache(x))
            && Next(s1, DeleteCache(x)) == WithWorker(freed, x, Rival(st, Some(m.(released := true))))
  {
    hide LocalEnabled, LocalNext;
  }

  lemma RivalFrees(s: State, w: WorkerUid, x: WorkerUid, key: CacheKey, u: CacheUid) returns (log: seq<Action>)
    requires x != w && x in s.workers && s.workers[x] == Rival(RefreshStatus(key, u), None)
    requires key in s.present && s.present[key] == u && u in s.caches && s.caches[u].phase != Active &&
             !ImageExists(s.images, u)
    ensures OthersRun(s, w, log)
         == Some(s.(present := s.present - {key}, caches := s.caches[u := s.caches[u].(phase := Collected)]))
  {
    hide OthersRun;
    var st := RefreshStatus(key, u);
    var m0 := FreshMemory(st, false);
    var m1 := m0.(view := Seen(u, s.caches[u].version, false, s.caches[u].refs));
    var m2 := m1.(imageAbsent := Some(u));
    var m3 := m2.(released := true);
    var freed := s.(present := s.present - {key}, caches := s.caches[u := s.caches[u].(phase := Collected)]);
    var s0, s1, s2, s3 := WithWorker(s, x, Rival(st, Some(m0))), WithWorker(s, x, Rival(st, Some(m1))),
                          WithWorker(s, x, Rival(st, Some(m2))), WithWorker(freed, x, Rival(st, Some(m3)));
    assert LocalEnabled(Rival(st, None), Start) && LocalNext(Rival(st, None), Start) == Rival(st, Some(m0));
    StopStep(Rival(st, Some(m3)));
    RivalReads(s, x, key, u);
    RivalSeesNoImage(s, x, key, u);
    RivalDeletes(s, x, key, u);
    hide Enabled, Next, LocalEnabled, LocalNext;
    assert WithWorker(s, x, Rival(st, None)) == s && WithWorker(freed, x, Rival(st, None)) == freed;
    LocalStepAt(s, x, Rival(st, None), Start);
    LocalStepAt(freed, x, Rival(st, Some(m3)), Stop);
    NobodyActs(freed, w);
    log := [Local(x, Stop)] + [];
    OthersCons(s3, w, Local(x, Stop), [], freed);
    OthersCons(s2, w, DeleteCache(x), log, freed);
    log := [DeleteCache(x)] + log;
    OthersCons(s1, w, ObserveImageAbsent(x), log, freed);
    log := [ObserveImageAbsent(x)] + log;
    OthersCons(s0, w, ReadCache(x), log, freed);
    log := [ReadCache(x)] + log;
    OthersCons(s, w, Local(x, Start), log, freed);
    log := [Local(x, Start)] + log;
  }

  // ---------- Any number of rounds ----------

  /** The worker recorded a cache name but pinned no image, and nothing carries the name. */
  ghost predicate Starvable(s: State, w: WorkerUid) {
    && w in s.workers && Cleanable(s.workers[w])
    && !NameSettled(s.workers[w].status) && s.workers[w].status.cacheName.value !in s.present
  }

  lemma {:induction false} FreshNat(keys: set<nat>) returns (x: nat)
    ensures forall k :: k in keys ==> k < x
    decreases |keys|
  {
    x := 0;
    if keys != {} {
      var k :| k in keys;
      var y := FreshNat(keys - {k});
      x := if y <= k then k + 1 else y;
      forall j | j in keys ensures j < x {
        assert j == k || j in keys - {k};
      }
    }
  }

  lemma FreshImage(s: State, u: CacheUid)
    requires Inv(s) && u !in s.caches
    ensures u !in s.images
  {
    assert u in s.images ==> ImageOK(s, u);
  }

  /** One round: a rival uses the name, the reconcile only deletes the rival's image. */
  lemma HeldUpRound(s: State, w: WorkerUid) returns (log: seq<Action>, x: WorkerUid, u: CacheUid, t: State)
    requires CleanupInv(s) && Starvable(s, w) && AllGone(s.workers[w].cloud, DeletedKinds(s.workers[w].policy))
    ensures Round(s, w, log) == Some(t) && CleanupInv(t)
    ensures x != w && x !in s.workers && u !in s.caches
    ensures var mid := AfterRival(s, x, s.workers[w].status.cacheName.value, u);
            t == WithWorker(ImageGone(mid, u), w, Rested(s.workers[w]))
  {
    hide Inv, AllNamed, Reaches, Run, OthersRun, CleanupLog, LocalInv;
    x := FreshNat(s.workers.Keys);
    u := FreshNat(s.caches.Keys);
    FreshImage(s, u);
    var key := s.workers[w].status.cacheName.value;
    var mid := AfterRival(s, x, key, u);
    log := RivalRuns(s, w, x, key, u);
    OthersReach(s, w, log, mid);
    RunKeepsNamed(s, log, mid);
    t := WithWorker(ImageGone(mid, u), w, Rested(s.workers[w]));
    InvariantLocal(mid, w);
    HeldUpPass(mid, w, u);
    RunKeepsNamed(mid, CleanupLog(mid, w), t);
    assert Run(mid, CleanupLog(mid, w)) == Some(t) by { SameRun(mid, CleanupLog(mid, w), t); }
  }

  lemma SameRun(s: State, log: seq<Action>, t: State)
    requires Reaches(s, log, t)
    ensures Run(s, log) == Some(t)
  {}

  /** After the rival frees the name, everything is as before the round. */
  lemma NameFreeAgain(s: State, w: WorkerUid, x: WorkerUid, u: CacheUid, t: State)
      returns (log: seq<Action>, freed: State)
    requires CleanupInv(t) && Starvable(s, w) && x != w
    requires t == WithWorker(ImageGone(AfterRival(s, x, s.workers[w].status.cacheName.value, u), u), w,
             Rested(s.workers[w]))
    ensures OthersRun(t, w, log) == Some(freed) && CleanupInv(freed) && Starvable(freed, w)
    ensures w in t.workers && t.workers[w].finalizer == Held
  {
    hide CleanupInv, OthersRun;
    var key := s.workers[w].status.cacheName.value;
    log := RivalFrees(t, w, x, key, u);
    freed := t.(present := t.present - {key}, caches := t.caches[u := t.caches[u].(phase := Collected)]);
    OthersReach(t, w, log, freed);
    RunKeepsNamed(t, log, freed);
  }

  /** While resources are left, a round without interference deletes one of them and nothing else. */
  lemma DeletingRound(s: State, w: WorkerUid) returns (t: State)
    requires CleanupInv(s) && Starvable(s, w) && !AllGone(s.workers[w].cloud, DeletedKinds(s.workers[w].policy))
    ensures Round(s, w, []) == Some(t) && CleanupInv(t) && Starvable(t, w)
  {
    hide CleanupInv, Run, CleanupLog;
    t := CleanupPassProgresses(s, w);
    RunKeepsNamed(s, CleanupLog(s, w), t);
  }

  /** For any number of rounds there is interference after which the finalizer is still held. */
  lemma {:induction false} HoldUp(s: State, w: WorkerUid, n: nat) returns (noise: seq<seq<Action>>, t: State)
    requires CleanupInv(s) && Starvable(s, w)
    ensures |noise| == n && AfterRounds(s, w, noise) == Some(t)
    ensures w in t.workers && t.workers[w].finalizer == Held
    decreases n
  {
    hide CleanupInv, Round, OthersRun;
    noise, t := [], s;
    if n > 0 {
      var rest;
      if !AllGone(s.workers[w].cloud, DeletedKinds(s.workers[w].policy)) {
        var next := DeletingRound(s, w);
        rest, t := HoldUp(next, w, n - 1);
        noise := [[]] + rest;
        assert noise[1..] == rest;
        return;
      }
      var log, x, u, next := HeldUpRound(s, w);
      var free, freed := NameFreeAgain(s, w, x, u, next);
      rest, t := HoldUp(freed, w, n - 1);
      hide Starvable, AfterRival, ImageGone, Rested;
      if n == 1 {
        noise, t := [log], next;
        assert [log][1..] == [];
        assert AfterRounds(next, w, []) == Some(next);
      } else {
        PrefixedRounds(next, w, free, freed, rest, t);
        noise := [log, free + rest[0]] + rest[1..];
        assert noise[1..] == [free + rest[0]] + rest[1..];
      }
    }
  }

  /** Actions of the others before the first round belong to that round. */
  lemma PrefixedRounds(s: State, w: WorkerUid, log: seq<Action>, mid: State, rest: seq<seq<Action>>, t: State)
    requires w in s.workers && s.workers[w].finalizer != Removed && w in mid.workers &&
             mid.workers[w].finalizer != Removed
    requires OthersRun(s, w, log) == Some(mid) && rest != [] && AfterRounds(mid, w, rest) == Some(t)
    ensures AfterRounds(s, w, [log + rest[0]] + rest[1..]) == Some(t)
  {
    hide OthersRun, Run, CleanupLog;
    var end := OthersRun(mid, w, rest[0]).value;
    OthersConcat(s, w, log, mid, rest[0], end);
    assert ([log + rest[0]] + rest[1..])[1..] == rest[1..];
  }

  /** Unless the name is in use, seven reconciles are certain to be enough iff the worker's name is settled. */
  lemma FinishesIffNameSettled(s: State, w: WorkerUid)
    requires Reachable(s) && w in s.workers && Cleanable(s.workers[w])
    requires NameSettled(s.workers[w].status) || s.workers[w].status.cacheName.value !in s.present
    ensures NameSettled(s.workers[w].status) <==>
              forall noise, t :: |noise| == 7 && AfterRounds(s, w, noise) == Some(t) ==>
                w in t.workers && t.workers[w].finalizer == Removed
  {
    ReachableCleanupInv(s);
    hide CleanupInv, AfterRounds, Cleanable;
    if NameSettled(s.workers[w].status) {
      forall noise, t | |noise| == 7 && AfterRounds(s, w, noise) == Some(t)
        ensures w in t.workers && t.workers[w].finalizer == Removed
      {
        CleanupFinishes(s, w, noise, t);
      }
    } else {
      var noise, t := HoldUp(s, w, 7);
    }
  }

  /** A worker with port and OS volume that was stopped before it pinned an image, and is being deleted. */
  lemma StarvableWorkerExists(key: CacheKey) returns (s: State)
    ensures Reachable(s) && Starvable(s, 0) && s.workers[0].status == NamedStatus(key)
  {
    var named := Rival(NamedStatus(key), Some(NamedMemory(key)));
    var log := RivalStarts(EMPTY, 1, 0, key);
    var steps := [Stop, MarkDeleting, DemandDisappears];
    var w1 := LocalNext(named, Stop);
    var w2 := LocalNext(w1, MarkDeleting);
    var w3 := LocalNext(w2, DemandDisappears);
    assert steps[2..][1..] == [] && LocalRun(w3, []) == Some(w3) && LocalRun(w2, steps[2..]) == Some(w3);
    assert steps[1..][1..] == steps[2..] && LocalRun(w1, steps[1..]) == Some(w3) && LocalRun(named, steps) == Some(w3);
    s := WithWorker(EMPTY, 0, w3);
    hide OthersRun, LocalRun, LocalEnabled, LocalNext;
    LiftRuns(EMPTY, 1, 0, named, steps, w3);
    OthersConcat(EMPTY, 1, log, WithWorker(EMPTY, 0, named), Lift(0, steps), s);
    OthersReach(EMPTY, 1, log + Lift(0, steps), s);
  }

  /** No number of rounds is enough: from a reachable state cleanup can be held up that long. */
  lemma CleanupCanBeHeldUp(key: CacheKey, n: nat) returns (s: State, noise: seq<seq<Action>>, t: State)
    ensures Reachable(s) && 0 in s.workers && Cleanable(s.workers[0])
    ensures |noise| == n && AfterRounds(s, 0, noise) == Some(t) && 0 in t.workers && t.workers[0].finalizer == Held
  {
    s := StarvableWorkerExists(key);
    ReachableCleanupInv(s);
    hide AfterRounds, CleanupInv;
    noise, t := HoldUp(s, 0, n);
  }

  // ---------- A journal entry without a resource ----------

  lemma UnpostedSteps()
    ensures LocalRun(Builder(EMPTY_STATUS, [], Fresh(EMPTY_STATUS)), [SetPending(Port), StatusWritten, Stop])
            == Some(Builder(EMPTY_STATUS.(pendingCreate := Some(Port)), [], None))
  {
    var asked := EMPTY_STATUS.(pendingCreate := Some(Port));
    var w0, w1 := Builder(EMPTY_STATUS, [], Fresh(EMPTY_STATUS)), Builder(EMPTY_STATUS, [], Fresh(asked));
    var w2 := Builder(asked, [], Some(FreshMemory(asked, false).(armed := Some(Port))));
    JournalSteps(EMPTY_STATUS, [], Port);
    StopStep(w2);
    hide LocalEnabled, LocalNext;
    ChainRuns([w0, w1, w2, Builder(asked, [], None)], [SetPending(Port), StatusWritten, Stop]);
  }

  /** A crash between the stored intent and the POST. */
  lemma UnpostedEntryIsReachable() returns (s: State)
    ensures Reachable(s) && 0 in s.workers && s.workers[0].mem == None && s.workers[0].finalizer == Held
    ensures s.workers[0].status.pendingCreate == Some(Port) && AllGone(s.workers[0].cloud, {Port})
  {
    hide OthersRun, LocalRun, LocalEnabled, LocalNext;
    var started := Builder(EMPTY_STATUS, [], Fresh(EMPTY_STATUS));
    var steps := [AddFinalizer, Start] + [SetPending(Port), StatusWritten, Stop];
    var wk := Builder(EMPTY_STATUS.(pendingCreate := Some(Port)), [], None);
    StartStepsRun();
    UnpostedSteps();
    LocalConcat(NewWorker(RIVAL_POLICY), [AddFinalizer, Start], started, [SetPending(Port), StatusWritten, Stop], wk);
    s := WithWorker(EMPTY, 0, wk);
    var s0 := WithWorker(EMPTY, 0, NewWorker(RIVAL_POLICY));
    assert Enabled(EMPTY, AddWorker(0, RIVAL_POLICY)) && Next(EMPTY, AddWorker(0, RIVAL_POLICY)) == s0;
    LiftRuns(EMPTY, 1, 0, NewWorker(RIVAL_POLICY), steps, wk);
    OthersCons(EMPTY, 1, AddWorker(0, RIVAL_POLICY), Lift(0, steps), s);
    OthersReach(EMPTY, 1, [AddWorker(0, RIVAL_POLICY)] + Lift(0, steps), s);
  }

  /** Outside deletion a lookup finds the resource, and its ID is stored. */
  lemma FoundStepsRun(wk: Worker, k: Kind, i: nat) returns (wk': Worker)
    requires StatusOK(wk.status) && wk.mem == None && wk.finalizer == Held && !wk.deleting
    requires wk.status.pendingCreate == Some(k) && i < |wk.cloud| && wk.cloud[i].kind == k && !wk.cloud[i].gone
    ensures LocalRun(wk, [BecomesListed(i), Start, RecordFound(k, i), StatusWritten]) == Some(wk')
    ensures wk'.status.pendingCreate == None
  {
    var w1 := LocalNext(wk, BecomesListed(i));
    var w2 := LocalNext(w1, Start);
    var w3 := LocalNext(w2, RecordFound(k, i));
    wk' := LocalNext(w3, StatusWritten);
    hide LocalEnabled, LocalNext, StatusOK;
    ChainRuns([wk, w1, w2, w3, wk'], [BecomesListed(i), Start, RecordFound(k, i), StatusWritten]);
  }

  lemma CleanupStartsRun(wk: Worker, i: nat) returns (wk': Worker)
    requires wk.mem == None && wk.finalizer == Held && wk.deleting && i < |wk.cloud|
    ensures LocalRun(wk, [DemandDisappears, BecomesListed(i), Start, ObserveDemandAbsent]) == Some(wk')
    ensures wk' == wk.(demand := false, cloud := wk.cloud[i := wk.cloud[i].(listed := true)],
                       mem := Some(FreshMemory(wk.status, true).(demandAbsent := true)))
  {
    var w1 := LocalNext(wk, DemandDisappears);
    var w2 := LocalNext(w1, BecomesListed(i));
    var w3 := LocalNext(w2, Start);
    wk' := LocalNext(w3, ObserveDemandAbsent);
    hide LocalEnabled, LocalNext;
    ChainRuns([wk, w1, w2, w3, wk'], [DemandDisappears, BecomesListed(i), Start, ObserveDemandAbsent]);
  }

  lemma ForgetRuns(wk: Worker, k: Kind, i: nat) returns (wk': Worker)
    requires wk.mem.Some? && wk.mem.value.cleanup && wk.mem.value.demandAbsent && !wk.policy.retainAll
    requires wk.mem.value.status.pendingCreate == Some(k)
    requires i < |wk.cloud| && wk.cloud[i].kind == k && wk.cloud[i].listed && !wk.cloud[i].gone
    ensures LocalRun(wk, [BeginCleanup, ForgetPending(k, i), StatusWritten]) == Some(wk')
    ensures wk'.status.pendingCreate == None
  {
    var w1 := LocalNext(wk, BeginCleanup);
    var w2 := LocalNext(w1, ForgetPending(k, i));
    wk' := LocalNext(w2, StatusWritten);
    hide LocalEnabled, LocalNext;
    ChainRuns([wk, w1, w2, wk'], [BeginCleanup, ForgetPending(k, i), StatusWritten]);
  }

  /** During deletion a lookup finds the resource, and the entry is cleared before its delete is sent. */
  lemma ForgottenStepsRun(wk: Worker, k: Kind, i: nat) returns (steps: seq<LocalAction>, wk': Worker)
    requires wk.mem == None && wk.finalizer == Held && wk.deleting && !wk.policy.retainAll
    requires wk.status.pendingCreate == Some(k) && i < |wk.cloud| && wk.cloud[i].kind == k && !wk.cloud[i].gone
    ensures LocalRun(wk, steps) == Some(wk') && wk'.status.pendingCreate == None
  {
    hide LocalRun;
    var mid := CleanupStartsRun(wk, i);
    wk' := ForgetRuns(mid, k, i);
    var first := [DemandDisappears, BecomesListed(i), Start, ObserveDemandAbsent];
    LocalConcat(wk, first, mid, [BeginCleanup, ForgetPending(k, i), StatusWritten], wk');
    steps := first + [BeginCleanup, ForgetPending(k, i), StatusWritten];
  }

  /** Some run leads to a stored status without the entry. */
  ghost predicate Resolvable(s: State, w: WorkerUid) {
    exists log, s' :: Reaches(s, log, s') && w in s'.workers && s'.workers[w].status.pendingCreate == None
  }

  lemma StepsResolve(s: State, w: WorkerUid, steps: seq<LocalAction>, wk': Worker)
    requires w in s.workers && LocalRun(s.workers[w], steps) == Some(wk') && wk'.status.pendingCreate == None
    ensures Resolvable(s, w)
  {
    hide LocalRun, OthersRun, Reaches;
    var s' := WithWorker(s, w, wk');
    assert WithWorker(s, w, s.workers[w]) == s;
    LiftRuns(s, w + 1, w, s.workers[w], steps, wk');
    OthersReach(s, w + 1, Lift(w, steps), s');
    assert s'.workers[w] == wk';
  }

  lemma LiveEntryResolves(s: State, w: WorkerUid, k: Kind)
    requires Inv(s) && w in s.workers && s.workers[w].mem == None && s.workers[w].finalizer == Held
    requires s.workers[w].status.pendingCreate == Some(k) && !AllGone(s.workers[w].cloud, {k})
    requires !(s.workers[w].deleting && s.workers[w].policy.retainAll)
    ensures Resolvable(s, w)
  {
    hide Inv, LocalInv, LocalRun, StatusOK, Resolvable;
    var wk := s.workers[w];
    InvariantParts(s, w);
    var i :| 0 <= i < |wk.cloud| && wk.cloud[i].kind in {k} && !wk.cloud[i].gone;
    if wk.deleting {
      var steps, wk' := ForgottenStepsRun(wk, k, i);
      StepsResolve(s, w, steps, wk');
    } else {
      var wk' := FoundStepsRun(wk, k, i);
      StepsResolve(s, w, [BecomesListed(i), Start, RecordFound(k, i), StatusWritten], wk');
    }
  }

  /**
   * A stored entry can be resolved if and only if a resource of its kind exists and the worker is
   * not being deleted under the Retain policy. Otherwise it stays for ever.
   */
  lemma EntryResolvableIff(s: State, w: WorkerUid, k: Kind)
    requires Reachable(s) && w in s.workers && s.workers[w].mem == None && s.workers[w].finalizer == Held
    requires s.workers[w].status.pendingCreate == Some(k)
    ensures Resolvable(s, w) <==>
              !AllGone(s.workers[w].cloud, {k}) && !(s.workers[w].deleting && s.workers[w].policy.retainAll)
  {
    ReachableInvariant(s);
    hide Inv, Reaches, AllGone;
    if Resolvable(s, w) {
      var log, s' :| Reaches(s, log, s') && w in s'.workers && s'.workers[w].status.pendingCreate == None;
      if AllGone(s.workers[w].cloud, {k}) {
        EmptyEntryBlocksForever(s, log, s', w, k);
      }
      if s.workers[w].deleting && s.workers[w].policy.retainAll {
        RetainedEntryStays(s, log, s', w, k);
      }
    } else if !AllGone(s.workers[w].cloud, {k}) && !(s.workers[w].deleting && s.workers[w].policy.retainAll) {
      LiveEntryResolves(s, w, k);
    }
  }
}
