/**
 * The vSphere ISO cache of one pool: EnsureISO brings the datastore copy in line with the source
 * through conditional requests (section 13.1.3 of RFC 9110), ensureISOCache records the result
 * and prunes older copies. SHA-256 is taken as injective: a file is identified by its digest.
 */
module IsoCache {
  import opened Common
  import opened IsoRetention

  /** The HTTP answer. Failed covers network errors, other statuses and oversized bodies. */
  datatype Response = Failed | NotModified304 | Body(digest: Digest, size: nat, lastModified: Option<int>)

  datatype Download = DownloadError | Unmodified | Downloaded(digest: Digest, size: nat, lastModified: Option<int>)

  /** downloadISO: a 304 counts only if a validator was sent (section 15.4.5 of RFC 9110). */
  function DownloadISO(validator: Option<int>, answer: Response): (r: Download)
    ensures r == Unmodified <==> answer == NotModified304 && validator.Some?
    ensures r.Downloaded? <==> answer.Body?
    ensures r.Downloaded? ==>
              r.digest == answer.digest && r.size == answer.size && r.lastModified == answer.lastModified
  {
    match answer
    case Failed => DownloadError
    case NotModified304 => if validator.Some? then Unmodified else DownloadError
    case Body(d, n, t) => Downloaded(d, n, t)
  }

  /** Whether a VM still has the file mounted. */
  datatype Usage = InspectError | InUse | NotInUse

  datatype Check = ReadError | Valid | Invalid

  /**
   * What the datastore answers to the calls of one refresh: which reads, which steps of an upload
   * and which deletes succeed, and which bytes arrived. A move or delete that fails may have landed.
   */
  datatype Datastore = Datastore(
    cachedRead: bool,
    storedRead: bool,
    directoryMade: bool,
    uploaded: bool,
    arrived: Digest,
    stagedRead: bool,
    moved: bool,
    cleaned: bool,
    undeleted: set<Path>)

  /** isoRetainVersions */
  function RetainVersions(wanted: int): (r: int)
    ensures r >= 1 && (wanted >= 1 ==> r == wanted) && (wanted <= 0 ==> r == 2)
  {
    if wanted > 0 then wanted else 2
  }

  datatype Ensured = Ensured(path: Path, digest: Digest, size: nat, lastModified: Option<int>, deferred: bool,
                             uploaded: bool)

  type Files = map<Path, Digest>

  /** Nothing is lost outside staging, and whatever changed there holds the digest that its path names. */
  ghost predicate FilesKept(before: Files, after: Files) {
    && (forall p :: p in before && !p.Staging? ==> p in after)
    && (forall p :: p in after && !p.Staging? && (p !in before || before[p] != after[p]) ==>
          p.Content? && after[p] == p.digest)
  }

  /** What the status records about the cache, and what the datastore holds. */
  datatype Snapshot = Snapshot(path: Path, digest: Option<Digest>, history: seq<Entry>, files: Files)

  /** Every path that the status mentions. */
  function TrackedBy(x: Snapshot): set<Path> {
    Paths(x.history) + {x.path} - {NoPath}
  }

  /**
   * A completed refresh: every path that was tracked is in the new history or gone from the
   * datastore; the current copy is tracked, stored and verified; nothing untracked is deleted.
   */
  ghost predicate Completed(x: Snapshot, y: Snapshot) {
    && y.path.Content? && y.digest == Some(y.path.digest)
    && y.path in y.files && y.files[y.path] == y.path.digest && y.path in Paths(y.history)
    && (forall p :: p in TrackedBy(x) ==> p in Paths(y.history) || p !in y.files)
    && (forall p :: p in Paths(y.history) ==> p in TrackedBy(x) || p == y.path)
    && (forall p :: p in x.files && p !in TrackedBy(x) && !p.Staging? ==> p in y.files)
  }

  /**
   * What a completed refresh decided: every path that was tracked is in the new history or was
   * deleted, not both; the current copy is tracked, verified and never deleted.
   */
  ghost predicate Refreshed(y: Snapshot, tracked: set<Path>, deleted: set<Path>) {
    && y.path.Content? && y.digest == Some(y.path.digest)
    && y.path in y.files && y.files[y.path] == y.path.digest
    && y.path in Paths(y.history) && y.path !in deleted
    && deleted <= tracked
    && (forall p :: p in deleted ==> p !in y.files)
    && (forall p :: p in tracked ==> (p in Paths(y.history) <==> p !in deleted))
    && (forall p :: p in Paths(y.history) ==> p in tracked || p == y.path)
  }

  /** How many copies a refresh keeps, for a history without repeated paths. */
  ghost predicate KeptWithin(y: Snapshot, tracked: set<Path>, deleted: set<Path>, limit: int, undeleted: set<Path>) {
    var all := |tracked + {y.path}|;
    && DistinctPaths(y.history)
    && (all <= limit ==> deleted == {})
    && (undeleted == {} ==> |y.history| == if all <= limit then all else limit)
    && undeleted !! deleted
  }

  /** The tracked paths and the current one are divided into kept and stale ones. */
  ghost predicate Divided(tracked: set<Path>, current: Path, kept: seq<Entry>, stale: seq<Path>) {
    && current in Paths(kept) && current !in stale
    && (forall p :: p in tracked ==> (p in Paths(kept) <==> p !in stale))
    && (forall p :: p in Paths(kept) ==> p in tracked || p == current)
    && (forall p :: p in stale ==> p in tracked)
  }

  ghost predicate DividedAt(tracked: set<Path>, current: Path, kept: seq<Entry>, stale: seq<Path>, limit: int) {
    var all := |tracked + {current}|;
    DistinctPaths(kept) && |kept| == (if all <= limit then all else limit) && (all <= limit ==> stale == [])
  }

  /** Recording the current copy and pruning the stale ones makes a completed refresh. */
  lemma PrunedIsComplete(x: Snapshot, y: Snapshot, kept: seq<Entry>, stale: seq<Path>, deleted: set<Path>)
    requires y.path.Content? && y.digest == Some(y.path.digest)
    requires y.path in x.files && x.files[y.path] == y.path.digest && Divided(TrackedBy(x), y.path, kept, stale)
    requires forall p :: p in deleted ==> p in stale && p !in y.files
    requires forall p :: p in Paths(y.history) <==> p in Paths(kept) || (p in stale && p !in deleted)
    requires forall p :: p !in stale ==> (p in y.files <==> p in x.files) && (p in y.files ==> y.files[p] == x.files[p])
    ensures Completed(x, y) && Refreshed(y, TrackedBy(x), deleted)
  {}

  /** A call that completes no refresh leaves the record alone and loses no file. */
  ghost predicate RefreshStep(x: Snapshot, y: Snapshot) {
    || Completed(x, y)
    || (y.path == x.path && y.digest == x.digest && y.history == x.history && FilesKept(x.files, y.files))
  }

  ghost predicate Refreshes(trace: seq<Snapshot>) {
    trace != [] && forall i :: 0 < i < |trace| ==> RefreshStep(trace[i - 1], trace[i])
  }

  /** Refresh i stopped tracking the path, and then the datastore no longer held it. */
  ghost predicate Collected(trace: seq<Snapshot>, i: nat, p: Path) {
    0 < i < |trace| && p in TrackedBy(trace[i - 1]) && p !in TrackedBy(trace[i]) && p !in trace[i].files
  }

  /** Over any number of refreshes a tracked path is still tracked, or some refresh collected it. */
  lemma {:induction false} NothingTrackedIsLost(trace: seq<Snapshot>, p: Path)
    requires Refreshes(trace) && p in TrackedBy(trace[0])
    ensures p in TrackedBy(trace[|trace| - 1]) || exists i :: Collected(trace, i, p)
    decreases |trace|
  {
    var n := |trace| - 1;
    if n > 0 {
      var before := trace[..n];
      NothingTrackedIsLost(before, p);
      if p !in TrackedBy(trace[n]) {
        if p in TrackedBy(before[n - 1]) {
          assert RefreshStep(trace[n - 1], trace[n]);
          assert Collected(trace, n, p);
        } else {
          var i :| Collected(before, i, p);
          assert Collected(trace, i, p);
        }
      }
    }
  }

  /** The current copy of every completed refresh survives until a refresh names another one. */
  lemma {:induction false} CurrentCopySurvives(trace: seq<Snapshot>)
    requires Refreshes(trace) && trace[0].path in trace[0].files && !trace[0].path.Staging?
    ensures var last := trace[|trace| - 1]; last.path in last.files
    decreases |trace|
  {
    var n := |trace| - 1;
    if n > 0 {
      CurrentCopySurvives(trace[..n]);
      PathNeverStaging(trace[..n]);
      assert RefreshStep(trace[n - 1], trace[n]);
    }
  }

  lemma {:induction false} PathNeverStaging(trace: seq<Snapshot>)
    requires Refreshes(trace) && !trace[0].path.Staging?
    ensures !trace[|trace| - 1].path.Staging?
    decreases |trace|
  {
    var n := |trace| - 1;
    if n > 0 {
      PathNeverStaging(trace[..n]);
      assert RefreshStep(trace[n - 1], trace[n]);
    }
  }

  class Cache {
    // pool.Status.ISO
    var urlHash: Option<nat>
    var path: Path
    var digest: Option<Digest>
    var size: nat
    var lastModified: Option<int>
    var token: Option<nat>
    var uploadedAt: Option<int>
    var history: seq<Entry>

    // the datastore
    var files: Files

    /** The validator may be sent only for the exact source, path and refresh token that it came from. */
    function Validator(url: nat, force: Option<nat>): Option<int> reads this {
      if urlHash == Some(url) && digest.Some? && path == Content(digest.value) && (force == None || force == token)
      then lastModified else None
    }

    /** verifyISO downloads the stored copy and hashes it. */
    method VerifyISO(p: Path, d: Digest, read: bool) returns (r: Check)
      ensures r == ReadError <==> !read
      ensures r == Valid <==> read && p in files && files[p] == d
    {
      if !read {
        return ReadError;
      }
      return if p in files && files[p] == d then Valid else Invalid;
    }

    /** Uploads to a staging path, verifies what arrived, and only then moves it into place. */
    method Publish(d: Digest, attempt: nat, x: Datastore) returns (ok: bool)
      modifies `files
      ensures FilesKept(old(files), files)
      ensures ok ==> Content(d) in files && files[Content(d)] == d
      ensures ok <==> x.directoryMade && x.uploaded && x.stagedRead && x.arrived == d && x.moved
    {
      if !x.directoryMade {
        return false;
      }
      var staging := Staging(d, attempt);
      files := files[staging := x.arrived];
      ok := false;
      if x.uploaded {
        var check := VerifyISO(staging, d, x.stagedRead);
        var landed: bool := *;
        if check == Valid && (x.moved || landed) {
          files := (files - {staging})[Content(d) := files[staging]];
          ok := x.moved;
        }
      }
      if x.cleaned {
        files := files - {staging};
      }
    }

    /** The copy of digest d is in place and readable, or can be put there. */
    ghost predicate CanStore(d: Digest, x: Datastore) reads this {
      && x.storedRead
      && (|| (Content(d) in files && files[Content(d)] == d)
          || (x.directoryMade && x.uploaded && x.stagedRead && x.arrived == d && x.moved))
    }

    /** Verifies the copy of a downloaded ISO, or publishes it. */
    method StoreDownload(download: Download, attempt: nat, x: Datastore) returns (r: Option<Ensured>)
      requires download.Downloaded?
      modifies `files
      ensures FilesKept(old(files), files) && (r.Some? <==> old(CanStore(download.digest, x)))
      ensures r.Some? ==>
                && !r.value.deferred && r.value.digest == download.digest && r.value.path == Content(download.digest)
                && r.value.path in files && files[r.value.path] == r.value.digest
                && r.value.size == download.size && r.value.lastModified == download.lastModified
                && (r.value.uploaded <==> !old(Content(download.digest) in files &&
                                               files[Content(download.digest)] == download.digest))
    {
      var d := download.digest;
      var check := VerifyISO(Content(d), d, x.storedRead);
      if check == ReadError {
        return None;
      }
      if check == Valid {
        return Some(Ensured(Content(d), d, download.size, download.lastModified, false, false));
      }
      var ok := Publish(d, attempt, x);
      if !ok {
        return None;
      }
      return Some(Ensured(Content(d), d, download.size, download.lastModified, false, true));
    }

    /** The recorded copy came from this very source and request, so the source may confirm it with a 304. */
    ghost predicate Confirmable(url: nat, force: Option<nat>) reads this {
      && urlHash == Some(url) && (force.Some? ==> token == force)
      && digest.Some? && path == Content(digest.value) && lastModified.Some?
    }

    /** The answers that lead to a usable copy. */
    ghost predicate CanEnsure(url: Option<nat>, force: Option<nat>, first: Response, second: Response, usage: Usage,
                              x: Datastore) reads this {
      && url.Some?
      && (|| (first.Body? && CanStore(first.digest, x))
          || (&& first == NotModified304 && Confirmable(url.value, force)
              && (|| usage == InUse
                  || (&& usage == NotInUse && x.cachedRead
                      && (|| (path in files && files[path] == digest.value)
                          || (second.Body? && CanStore(second.digest, x)))))))
    }

    /**
     * EnsureISO. A deferred result repeats the recorded identity after the source confirmed it;
     * any other success was verified in this call against the digest that it returns. The recorded
     * copy of another source, or from before a requested refresh, is never reused.
     */
    method EnsureISO(url: Option<nat>, force: Option<nat>, first: Response, second: Response, usage: Usage,
                     attempt: nat, x: Datastore)
      returns (r: Option<Ensured>)
      modifies `files
      ensures FilesKept(old(files), files)
      ensures (r.Some? <==> old(CanEnsure(url, force, first, second, usage, x))) && (r.Some? ==> url.Some?)
      ensures r.Some? ==> (r.value.deferred <==> first == NotModified304 && usage == InUse)
      ensures r.Some? && r.value.deferred ==>
                && Confirmable(url.value, force) && files == old(files)
                && r.value.path == path == Content(r.value.digest) && digest == Some(r.value.digest)
                && r.value.size == size && r.value.lastModified == lastModified
      ensures r.Some? && !r.value.deferred ==>
                && r.value.path == Content(r.value.digest)
                && r.value.path in files && files[r.value.path] == r.value.digest
                && (|| (first.Body? && r.value.digest == first.digest)
                    || (first == NotModified304 && Confirmable(url.value, force) && digest == Some(r.value.digest))
                    || (first == NotModified304 && second.Body? && r.value.digest == second.digest))
      ensures r.Some? && (urlHash != url || (force.Some? && force != token)) ==>
                first.Body? && !r.value.deferred && r.value.digest == first.digest
    {
      if url == None {
        return None;
      }
      var validator := Validator(url.value, force);
      var download := DownloadISO(validator, first);
      if download == Unmodified {
        if usage == InspectError {
          return None;
        }
        if usage == InUse {
          return Some(Ensured(path, digest.value, size, validator, true, false));
        }
        var check := VerifyISO(path, digest.value, x.cachedRead);
        if check == ReadError {
          return None;
        }
        if check == Valid {
          return Some(Ensured(path, digest.value, size, validator, false, false));
        }
        download := DownloadISO(None, second);
      }
      if download == DownloadError {
        return None;
      }
      r := StoreDownload(download, attempt, x);
    }

    // ---------- ensureISOCache ----------

    ghost function Now(): Snapshot reads this {
      Snapshot(path, digest, history, files)
    }

    /** DeleteISO: an absent file is fine; after an error the file may or may not be gone. */
    method DeleteISO(p: Path, works: bool) returns (ok: bool)
      modifies `files
      ensures forall q :: q != p ==> (q in files <==> q in old(files)) && (q in files ==> files[q] == old(files)[q])
      ensures ok <==> works
      ensures ok ==> p !in files
    {
      ok := works;
      var landed: bool := *;
      if ok || landed {
        files := files - {p};
      }
    }

    /** Deletes the stale copies; exactly those that could not be deleted stay in the history. */
    method Prune(stale: seq<Path>, before: seq<Entry>, undeleted: set<Path>) returns (ghost deleted: set<Path>)
      requires forall p :: p in stale ==> p in Paths(before) && p != NoPath
      requires forall i, j :: 0 <= i < j < |stale| ==> stale[i] != stale[j]
      requires forall p :: p in stale ==> p !in Paths(history)
      modifies `files, `history
      ensures forall p :: p in deleted <==> p in stale && p !in undeleted
      ensures forall p :: p in deleted ==> p !in files
      ensures forall p :: p in Paths(history) <==> p in Paths(old(history)) || (p in stale && p !in deleted)
      ensures forall p :: p !in stale ==>
                (p in files <==> p in old(files)) && (p in files ==> files[p] == old(files)[p])
      ensures DistinctPaths(old(history)) ==> DistinctPaths(history)
      ensures (forall p :: p in stale ==> p !in undeleted) ==> history == old(history)
    {
      hide DistinctPaths;
      deleted := {};
      for i := 0 to |stale|
        invariant forall p :: p in deleted <==> p in stale[..i] && p !in undeleted
        invariant forall p :: p in deleted ==> p !in files
        invariant forall p :: p in Paths(history) <==> p in Paths(old(history)) || (p in stale[..i] && p !in deleted)
        invariant forall p :: p !in stale ==>
                    (p in files <==> p in old(files)) && (p in files ==> files[p] == old(files)[p])
        invariant DistinctPaths(old(history)) ==> DistinctPaths(history)
        invariant (forall p :: p in stale ==> p !in undeleted) ==> history == old(history)
      {
        assert stale[..i + 1] == stale[..i] + [stale[i]];
        assert stale[i] in stale && stale[i] !in stale[..i];
        var ok := DeleteISO(stale[i], stale[i] !in undeleted);
        if ok {
          deleted := deleted + {stale[i]};
        } else {
          var entry := FindEntry(before, stale[i]);
          history := EnsureEntry(history, entry.value);
        }
      }
      assert stale[..|stale|] == stale;
    }

    /** Records a verified ISO as current, field by field, and rebuilds the history. */
    method RecordCurrent(e: Ensured, url: nat, force: Option<nat>, now: int, retain: int, before: seq<Entry>)
      modifies `urlHash, `path, `digest, `size, `lastModified, `token, `uploadedAt, `history
      ensures path == e.path && digest == Some(e.digest) && size == e.size && lastModified == e.lastModified
      ensures urlHash == Some(url) && token == force
      ensures uploadedAt == if e.uploaded || old(uploadedAt) == None || e.path != old(path) then Some(now)
              else old(uploadedAt)
      ensures var c := Entry(e.path, Some(e.digest), e.size, uploadedAt);
              history == NewHistory(before, c, retain) && KeepsFirst(before, c, retain, history)
    {
      var uploaded := if e.uploaded || uploadedAt == None || e.path != path then Some(now) else uploadedAt;
      urlHash, path, digest, size := Some(url), e.path, Some(e.digest), e.size;
      lastModified, token, uploadedAt := e.lastModified, force, uploaded;
      var c := Entry(e.path, Some(e.digest), e.size, uploaded);
      history := UpdatedISOHistory(before, c, retain);
    }

    method ApplyResult(e: Ensured, url: nat, force: Option<nat>, now: int, retain: int, undeleted: set<Path>)
      returns (ghost deleted: set<Path>)
      requires e.path == Content(e.digest) && e.path in files && files[e.path] == e.digest
      modifies this
      ensures Completed(old(Now()), Now()) && path == e.path
      ensures Refreshed(Now(), old(TrackedBy(Now())), deleted)
      ensures old(DistinctPaths(history)) ==>
                KeptWithin(Now(), old(TrackedBy(Now())), deleted, if retain <= 1 then 1 else retain, undeleted)
    {
      hide DistinctPaths, Completed, Refreshed, Paths;
      ghost var tracked := TrackedBy(Now());
      var before, stale := RecordAndChoose(e, url, force, now, retain);
      ghost var kept := history;
      StaleIsTracked(tracked, path, kept, stale, before);
      deleted := Prune(stale, before, undeleted);
      PrunedIsComplete(old(Now()), Now(), kept, stale, deleted);
      assert stale == [] ==> deleted == {};
    }

    lemma StaleIsTracked(tracked: set<Path>, current: Path, kept: seq<Entry>, stale: seq<Path>, before: seq<Entry>)
      requires Divided(tracked, current, kept, stale) && tracked == Paths(before) - {NoPath}
      ensures forall p :: p in stale ==> p in Paths(before) && p != NoPath && p !in Paths(kept)
    {}

    /** The first part: the status names the verified ISO, and the stale copies are chosen. */
    method RecordAndChoose(e: Ensured, url: nat, force: Option<nat>, now: int, retain: int)
      returns (before: seq<Entry>, stale: seq<Path>)
      requires e.path == Content(e.digest)
      modifies `urlHash, `path, `digest, `size, `lastModified, `token, `uploadedAt, `history
      ensures path == e.path && digest == Some(e.digest) && old(TrackedBy(Now())) == Paths(before) - {NoPath}
      ensures Divided(old(TrackedBy(Now())), path, history, stale)
      ensures forall i, j :: 0 <= i < j < |stale| ==> stale[i] != stale[j]
      ensures old(DistinctPaths(history)) ==>
                DividedAt(old(TrackedBy(Now())), path, history, stale, if retain <= 1 then 1 else retain)
    {
      hide DistinctPaths, KeepsFirst, NewHistory, Paths, FirstN, Older, Limit;
      var previous := path;
      before := EnsureEntry(history, Entry(path, digest, size, uploadedAt));
      ghost var tracked := TrackedBy(Now());
      RecordCurrent(e, url, force, now, retain, before);
      ghost var c := Entry(e.path, Some(e.digest), e.size, uploadedAt);
      stale := StaleISOPaths(before, previous, e.path, retain);
      StaleWithin(before, previous, c, retain, stale, tracked);
    }

    /** What the two loops decide, as the refresh needs it. */
    lemma StaleWithin(before: seq<Entry>, previous: Path, c: Entry, retain: int, stale: seq<Path>, tracked: set<Path>)
      requires forall p :: p in stale <==> IsStale(before, previous, c.path, retain, p)
      requires tracked == Paths(before) - {NoPath} && (previous == NoPath || previous in Paths(before))
      requires c.path != NoPath
      ensures Divided(tracked, c.path, NewHistory(before, c, retain), stale)
      ensures DistinctPaths(before) ==>
                DividedAt(tracked, c.path, NewHistory(before, c, retain), stale, if retain <= 1 then 1 else retain)
    {
      hide NewHistory, DistinctPaths, Paths, FirstN, Older, Limit;
      forall p: Path | p != NoPath
        ensures p in Paths(NewHistory(before, c, retain)) ==> p == c.path || p in Paths(before)
        ensures p in Paths(before) || p == c.path ==>
                  (p in Paths(NewHistory(before, c, retain)) <==> p !in stale)
        ensures c.path !in stale
      {
        KeptAndStalePartition(before, previous, c, retain, p);
      }
      KeptAndStalePartition(before, previous, c, retain, c.path);
      NewHistoryHasNoEmptyPath(before, c, retain);
      if DistinctPaths(before) {
        KeptCount(before, c, retain);
        assert Tracked(before, c.path) == tracked + {c.path};
        if |tracked + {c.path}| <= (if retain <= 1 then 1 else retain) && stale != [] {
          assert stale[0] in stale;
          NothingStaleWhileRoom(before, previous, c.path, retain, stale[0]);
        }
      }
    }

    lemma NewHistoryHasNoEmptyPath(before: seq<Entry>, c: Entry, retain: int)
      requires c.path != NoPath
      ensures NoPath !in Paths(NewHistory(before, c, retain))
    {
      var kept := FirstN(Older(before, c.path), Limit(retain) - 1);
      PathsConcatFirst(c, kept);
      FirstNPaths(Older(before, c.path), Limit(retain) - 1);
      OlderPaths(before, c.path, NoPath);
    }

    /**
     * ensureISOCache: nothing changes in the status unless a refresh completes. It completes exactly
     * when the answers lead to a copy that could be verified; what it deletes is what exceeds the
     * wanted number of copies.
     */
    method EnsureISOCache(due: bool, url: Option<nat>, force: Option<nat>, now: int, wanted: int,
                          first: Response, second: Response, usage: Usage, attempt: nat, x: Datastore)
      returns (r: Option<Path>, refreshed: bool, ghost deleted: set<Path>)
      modifies this
      ensures RefreshStep(old(Now()), Now())
      ensures refreshed ==>
                r == Some(path) && Completed(old(Now()), Now()) && Refreshed(Now(), old(TrackedBy(Now())), deleted)
      ensures !refreshed ==> deleted == {} && path == old(path) && digest == old(digest) && history == old(history)
      ensures refreshed <==>
                due && old(CanEnsure(url, force, first, second, usage, x)) &&
                    !(first == NotModified304 && usage == InUse)
      ensures !due ==> r == Some(path) && files == old(files)
      ensures due ==> (r.Some? <==> old(CanEnsure(url, force, first, second, usage, x)))
      ensures r.Some? ==> r == Some(path)
      ensures old(DistinctPaths(history)) ==> DistinctPaths(history)
      ensures refreshed && old(DistinctPaths(history)) ==>
                KeptWithin(Now(), old(TrackedBy(Now())), deleted, if wanted > 0 then wanted else 2, x.undeleted)
    {
      hide Refreshed, KeptWithin, Completed, CanEnsure, DistinctPaths;
      deleted, refreshed := {}, false;
      if !due {
        SameStep(Now());
        return Some(path), false, {};
      }
      var e := EnsureISO(url, force, first, second, usage, attempt, x);
      if e == None {
        return None, false, {};
      }
      if e.value.deferred {
        return Some(e.value.path), false, {};
      }
      ghost var mid := Now();
      deleted := ApplyResult(e.value, url.value, force, now, RetainVersions(wanted), x.undeleted);
      EnsuredThenCompleted(old(Now()), mid, Now());
      KeptIsDistinct(Now(), old(TrackedBy(Now())), deleted, RetainVersions(wanted), x.undeleted);
      return Some(path), true, deleted;
    }

    lemma SameStep(y: Snapshot)
      ensures RefreshStep(y, y)
    {}

    lemma KeptIsDistinct(y: Snapshot, tracked: set<Path>, deleted: set<Path>, limit: int, undeleted: set<Path>)
      ensures KeptWithin(y, tracked, deleted, limit, undeleted) ==> DistinctPaths(y.history)
    {}

    /** What EnsureISO stored before a completed refresh does not matter to it. */
    lemma EnsuredThenCompleted(x: Snapshot, mid: Snapshot, y: Snapshot)
      requires mid == x.(files := mid.files) && FilesKept(x.files, mid.files) && Completed(mid, y)
      ensures Completed(x, y)
    {}

    /** Any number of calls is a sequence of refreshes from the old to the new state. */
    method RefreshRepeatedly(rounds: nat) returns (ghost trace: seq<Snapshot>)
      modifies this
      ensures |trace| == rounds + 1 && Refreshes(trace) && trace[0] == old(Now()) && trace[rounds] == Now()
    {
      hide RefreshStep, Completed;
      trace := [Now()];
      for i := 0 to rounds
        invariant |trace| == i + 1 && Refreshes(trace) && trace[0] == old(Now()) && trace[i] == Now()
      {
        var first: Response, second: Response, usage: Usage := *, *, *;
        var due: bool, url: Option<nat>, force: Option<nat> := *, *, *;
        var now: int, wanted: int, attempt: nat, x: Datastore := *, *, *, *;
        var result, refreshed;
        ghost var gone;
        result, refreshed, gone := EnsureISOCache(due, url, force, now, wanted, first, second, usage, attempt, x);
        trace := trace + [Now()];
      }
    }
  }
}
