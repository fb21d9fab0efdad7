/**
 * Which cached ISOs are kept and which are deleted. Two loops decide this independently:
 * updatedISOHistory builds the new history, staleISOPaths the deletions. They agree exactly.
 */
module IsoRetention {
  import opened Common

  /** A datastore path. NoPath is the empty string; the content path names the digest it holds. */
  datatype Path = NoPath | Content(digest: Digest) | Staging(digest: Digest, attempt: nat) | Other(id: nat)

  datatype Entry = Entry(path: Path, digest: Option<Digest>, size: nat, uploadedAt: Option<int>)

  function Paths(h: seq<Entry>): set<Path> {
    set i | 0 <= i < |h| :: h[i].path
  }

  lemma PathsAppend(h: seq<Entry>, e: Entry)
    ensures Paths(h + [e]) == Paths(h) + {e.path}
  {
    var more := h + [e];
    assert more[|h|] == e && forall i :: 0 <= i < |h| ==> more[i] == h[i];
    forall p | p in Paths(h) ensures p in Paths(more) {
      var i :| 0 <= i < |h| && h[i].path == p;
      assert more[i].path == p;
    }
  }

  predicate Keepable(e: Entry, current: Path) {
    e.path != NoPath && e.path != current
  }

  /** The older entries among which retention chooses. */
  function Older(h: seq<Entry>, current: Path): seq<Entry> {
    if h == [] then []
    else if Keepable(h[|h| - 1], current) then Older(h[..|h| - 1], current) + [h[|h| - 1]]
    else Older(h[..|h| - 1], current)
  }

  function FirstN(h: seq<Entry>, n: nat): seq<Entry> {
    if |h| <= n then h else h[..n]
  }

  function Limit(retain: int): nat {
    if retain < 1 then 1 else retain
  }

  /** The current entry, then the older ones in order, up to the limit. */
  function NewHistory(h: seq<Entry>, current: Entry, retain: int): seq<Entry> {
    [current] + FirstN(Older(h, current.path), Limit(retain) - 1)
  }

  /** The positions before i of entries other than the current one. */
  function OlderPositions(h: seq<Entry>, i: nat, current: Path): set<int>
    requires i <= |h|
  {
    set j | 0 <= j < i && h[j].path != NoPath && h[j].path != current
  }

  function OlderBefore(h: seq<Entry>, i: nat, current: Path): nat
    requires i <= |h|
  {
    |OlderPositions(h, i, current)|
  }

  /** Entry i is kept if fewer than retain - 1 older ones come before it; it then stands right after those. */
  ghost predicate KeepsEarliest(h: seq<Entry>, current: Path, retain: int, r: seq<Entry>) {
    forall i :: 0 <= i < |h| && h[i].path != NoPath && h[i].path != current ==>
      var k := OlderBefore(h, i, current);
      k < retain - 1 ==> 1 + k < |r| && r[1 + k] == h[i]
  }

  /** Whatever is kept after the first entry is an older entry with as many older ones before it. */
  ghost predicate KeepsOnlyOlder(h: seq<Entry>, current: Path, r: seq<Entry>) {
    forall k :: 1 <= k < |r| ==> FromOlder(h, current, r, k)
  }

  ghost predicate FromOlder(h: seq<Entry>, current: Path, r: seq<Entry>, k: int) {
    exists i :: IsOlder(h, i, current, r, k)
  }

  /** Place k after the first one holds the older entry at position i, with k - 1 older ones before it. */
  ghost predicate IsOlder(h: seq<Entry>, i: int, current: Path, r: seq<Entry>, k: int) {
    && 0 <= i < |h| && 0 <= k < |r| && r[k] == h[i] && h[i].path != NoPath && h[i].path != current
    && OlderBefore(h, i, current) == k - 1
  }

  /** The current entry comes first, then the earliest older entries in their order, as many as fit. */
  ghost predicate KeepsFirst(h: seq<Entry>, current: Entry, retain: int, r: seq<Entry>) {
    var room := if retain <= 1 then 0 else retain - 1;
    var older := OlderBefore(h, |h|, current.path);
    && |r| == 1 + (if older <= room then older else room) && r[0] == current
    && KeepsEarliest(h, current.path, retain, r) && KeepsOnlyOlder(h, current.path, r)
  }

  lemma OneMoreOlder(h: seq<Entry>, i: nat, current: Path)
    requires i < |h|
    ensures OlderBefore(h, i + 1, current) == OlderBefore(h, i, current) + if Keepable(h[i], current) then 1 else 0
  {
    var before := OlderPositions(h, i, current);
    assert OlderPositions(h, i + 1, current) == if Keepable(h[i], current) then before + {i} else before;
  }

  lemma NoneBefore(h: seq<Entry>, current: Path)
    ensures OlderBefore(h, 0, current) == 0
  {
    assert OlderPositions(h, 0, current) == {};
  }

  /** Entry i stands in the filtered list right after the older ones that come before it. */
  lemma {:induction false} OlderAt(h: seq<Entry>, n: nat, current: Path)
    requires n <= |h|
    ensures |Older(h[..n], current)| == OlderBefore(h, n, current)
    ensures forall i :: 0 <= i < n && Keepable(h[i], current) ==>
              OlderBefore(h, i, current) < |Older(h[..n], current)| &&
              Older(h[..n], current)[OlderBefore(h, i, current)] == h[i]
  {
    hide OlderBefore;
    NoneBefore(h, current);
    if n > 0 {
      OlderAt(h, n - 1, current);
      OneMoreOlder(h, n - 1, current);
      assert h[..n][..n - 1] == h[..n - 1];
    }
  }

  /** Every place of the filtered list belongs to an entry. */
  lemma {:induction false} OlderFrom(h: seq<Entry>, n: nat, current: Path, k: nat) returns (i: nat)
    requires n <= |h| && k < |Older(h[..n], current)|
    ensures i < n && OlderBefore(h, i, current) == k && Older(h[..n], current)[k] == h[i] && Keepable(h[i], current)
  {
    hide OlderBefore;
    OlderAt(h, n - 1, current);
    assert h[..n][..n - 1] == h[..n - 1];
    if k < |Older(h[..n - 1], current)| {
      i := OlderFrom(h, n - 1, current, k);
    } else {
      i := n - 1;
    }
  }

  lemma KeptAt(h: seq<Entry>, current: Entry, retain: int, i: nat)
    requires i < |h| && Keepable(h[i], current.path)
    ensures var r := NewHistory(h, current, retain);
            var k := OlderBefore(h, i, current.path);
            k < retain - 1 ==> 1 + k < |r| && r[1 + k] == h[i]
  {
    hide OlderBefore, Older;
    OlderAt(h, |h|, current.path);
    assert h[..|h|] == h;
  }

  lemma KeptFrom(h: seq<Entry>, current: Entry, retain: int, k: nat) returns (i: nat)
    requires 1 <= k < |NewHistory(h, current, retain)|
    ensures i < |h| && OlderBefore(h, i, current.path) == k - 1 && NewHistory(h, current, retain)[k] == h[i]
    ensures Keepable(h[i], current.path)
  {
    hide OlderBefore, Older;
    assert h[..|h|] == h;
    i := OlderFrom(h, |h|, current.path, k - 1);
  }

  lemma KeptLength(h: seq<Entry>, current: Entry, retain: int)
    ensures var r := NewHistory(h, current, retain);
            var room := if retain <= 1 then 0 else retain - 1;
            var older := OlderBefore(h, |h|, current.path);
            |r| == 1 + (if older <= room then older else room) && r[0] == current
  {
    hide OlderBefore, Older;
    OlderAt(h, |h|, current.path);
    assert h[..|h|] == h;
  }

  /** Which entries are kept, how many, and in which order. */
  lemma NewHistoryKeepsFirst(h: seq<Entry>, current: Entry, retain: int)
    ensures KeepsFirst(h, current, retain, NewHistory(h, current, retain))
  {
    hide OlderBefore, NewHistory, KeepsEarliest, KeepsOnlyOlder;
    KeptLength(h, current, retain);
    EarliestAreKept(h, current, retain);
    OnlyOlderAreKept(h, current, retain);
  }

  lemma EarliestAreKept(h: seq<Entry>, current: Entry, retain: int)
    ensures KeepsEarliest(h, current.path, retain, NewHistory(h, current, retain))
  {
    hide OlderBefore, NewHistory;
    var r := NewHistory(h, current, retain);
    forall i | 0 <= i < |h| && h[i].path != NoPath && h[i].path != current.path
      ensures var k := OlderBefore(h, i, current.path); k < retain - 1 ==> 1 + k < |r| && r[1 + k] == h[i]
    {
      KeptAt(h, current, retain, i);
    }
  }

  lemma OnlyOlderAreKept(h: seq<Entry>, current: Entry, retain: int)
    ensures KeepsOnlyOlder(h, current.path, NewHistory(h, current, retain))
  {
    hide OlderBefore, NewHistory;
    var r := NewHistory(h, current, retain);
    forall k | 1 <= k < |r|
      ensures FromOlder(h, current.path, r, k)
    {
      var i := KeptFrom(h, current, retain, k);
      assert IsOlder(h, i, current.path, r, k);
    }
  }

  /** updatedISOHistory */
  method UpdatedISOHistory(h: seq<Entry>, current: Entry, retain0: int) returns (r: seq<Entry>)
    ensures r == NewHistory(h, current, retain0) && KeepsFirst(h, current, retain0, r)
  {
    hide KeepsFirst;
    NewHistoryKeepsFirst(h, current, retain0);
    var retain := if retain0 < 1 then 1 else retain0;
    r := [current];
    if |r| >= retain {
      return;
    }
    for i := 0 to |h|
      invariant |r| < retain && r == [current] + Older(h[..i], current.path)
    {
      assert h[..i + 1][..i] == h[..i];
      if Keepable(h[i], current.path) {
        r := r + [h[i]];
        if |r| >= retain {
          OlderGrows(h, i + 1, current.path);
          return;
        }
      }
    }
    assert h[..|h|] == h;
  }

  /** What the first i entries contribute comes first. */
  lemma {:induction false} OlderGrows(h: seq<Entry>, i: nat, current: Path)
    requires i <= |h|
    ensures |Older(h[..i], current)| <= |Older(h, current)|
    ensures Older(h, current)[..|Older(h[..i], current)|] == Older(h[..i], current)
    decreases |h|
  {
    if i == |h| {
      assert h[..i] == h;
    } else {
      OlderGrows(h[..|h| - 1], i, current);
      assert h[..|h| - 1][..i] == h[..i];
    }
  }

  /** No path is listed twice. */
  ghost predicate DistinctPaths(h: seq<Entry>) {
    forall i, j :: 0 <= i < j < |h| ==> h[i].path != h[j].path
  }

  /** ensureISOHistoryEntry */
  function EnsureEntry(h: seq<Entry>, e: Entry): (r: seq<Entry>)
    ensures Paths(r) == Paths(h) + (if e.path == NoPath then {} else {e.path})
    ensures |h| <= |r| <= |h| + 1 && r[..|h|] == h && (|r| > |h| ==> r[|h|] == e)
    ensures DistinctPaths(h) ==> DistinctPaths(r)
  {
    if e.path == NoPath || e.path in Paths(h) then h else PathsAppend(h, e); h + [e]
  }

  /** findISOHistoryEntry */
  method FindEntry(h: seq<Entry>, path: Path) returns (r: Option<Entry>)
    ensures r.Some? <==> path in Paths(h)
    ensures r.Some? ==>
              exists i :: 0 <= i < |h| && h[i] == r.value && r.value.path == path &&
                forall j :: 0 <= j < i ==> h[j].path != path
  {
    for i := 0 to |h|
      invariant path !in Paths(h[..i]) && forall j :: 0 <= j < i ==> h[j].path != path
    {
      if h[i].path == path {
        return Some(h[i]);
      }
      PathsAppend(h[..i], h[i]);
      assert h[..i] + [h[i]] == h[..i + 1];
    }
    assert h[..|h|] == h;
    return None;
  }

  /** The paths that staleISOPaths decides to keep. */
  method KeptPaths(h: seq<Entry>, current: Path, retain: nat) returns (kept: set<Path>)
    requires retain >= 1
    ensures kept == {current} + Paths(FirstN(Older(h, current), retain - 1))
  {
    kept := {current};
    var count := 1;
    for i := 0 to |h|
      invariant count == 1 + |Older(h[..i], current)| <= retain
      invariant kept == {current} + Paths(Older(h[..i], current))
    {
      if count >= retain {
        OlderGrows(h, i, current);
        return;
      }
      assert h[..i + 1][..i] == h[..i];
      if Keepable(h[i], current) {
        PathsAppend(Older(h[..i], current), h[i]);
        kept := kept + {h[i].path};
        count := count + 1;
      }
    }
    assert h[..|h|] == h;
  }

  /** staleISOPaths: every tracked path that the new history does not keep, once each. */
  method StaleISOPaths(h: seq<Entry>, previous: Path, current: Path, retain0: int) returns (stale: seq<Path>)
    ensures forall p :: p in stale <==>
              p != NoPath && p != current && (p == previous || p in Paths(h))
              && p !in Paths(FirstN(Older(h, current), Limit(retain0) - 1))
    ensures forall i, j :: 0 <= i < j < |stale| ==> stale[i] != stale[j]
  {
    var keep := KeptPaths(h, current, Limit(retain0));
    ghost var target := FirstN(Older(h, current), Limit(retain0) - 1);
    var kept := keep;
    stale := [];
    if previous != NoPath && previous != current && previous !in kept {
      stale := [previous];
    }
    for i := 0 to |h|
      invariant forall p :: p in stale <==>
                  p != NoPath && p != current && (p == previous || p in Paths(h[..i])) && p !in keep
      invariant forall p :: p in kept <==> p in keep || (p in Paths(h[..i]) && p != NoPath && p != current)
      invariant forall a, b :: 0 <= a < b < |stale| ==> stale[a] != stale[b]
    {
      PathsAppend(h[..i], h[i]);
      assert h[..i] + [h[i]] == h[..i + 1];
      var path := h[i].path;
      if path != NoPath && path != current && path !in kept {
        kept := kept + {path};
        if path !in stale {
          stale := stale + [path];
        }
      }
    }
    assert h[..|h|] == h;
  }

  // ---------- The two loops agree ----------

  lemma {:induction false} OlderPaths(h: seq<Entry>, current: Path, p: Path)
    ensures p in Paths(Older(h, current)) <==> p in Paths(h) && p != NoPath && p != current
  {
    if h != [] {
      var n := |h| - 1;
      OlderPaths(h[..n], current, p);
      PathsAppend(h[..n], h[n]);
      assert h[..n] + [h[n]] == h;
      PathsAppend(Older(h[..n], current), h[n]);
    }
  }

  lemma PathsConcatFirst(e: Entry, h: seq<Entry>)
    ensures Paths([e] + h) == {e.path} + Paths(h)
  {
    var more := [e] + h;
    assert more[0] == e && forall i :: 0 <= i < |h| ==> more[i + 1] == h[i];
    forall p | p in Paths(h) ensures p in Paths(more) {
      var i :| 0 <= i < |h| && h[i].path == p;
      assert more[i + 1].path == p;
    }
  }

  lemma FirstNPaths(h: seq<Entry>, n: nat)
    ensures Paths(FirstN(h, n)) <= Paths(h)
  {}

  /** What staleISOPaths returns, as a set. */
  ghost predicate IsStale(h: seq<Entry>, previous: Path, current: Path, retain: int, p: Path) {
    && p != NoPath && p != current && (p == previous || p in Paths(h))
    && p !in Paths(FirstN(Older(h, current), Limit(retain) - 1))
  }

  /** Kept and stale paths partition the tracked ones, for every history and retain count. */
  lemma KeptAndStalePartition(h: seq<Entry>, previous: Path, current: Entry, retain: int, p: Path)
    requires p != NoPath
    ensures p in Paths(NewHistory(h, current, retain)) ==> p == current.path || p in Paths(h)
    ensures p in Paths(h) || p == previous || p == current.path ==>
              (p in Paths(NewHistory(h, current, retain)) <==> !IsStale(h, previous, current.path, retain, p))
    ensures !IsStale(h, previous, current.path, retain, current.path)
  {
    var kept := FirstN(Older(h, current.path), Limit(retain) - 1);
    PathsConcatFirst(current, kept);
    FirstNPaths(Older(h, current.path), Limit(retain) - 1);
    OlderPaths(h, current.path, p);
  }

  // ---------- How many are kept ----------

  lemma {:induction false} OlderStaysDistinct(h: seq<Entry>, current: Path)
    requires DistinctPaths(h)
    ensures DistinctPaths(Older(h, current))
  {
    if h != [] {
      var n := |h| - 1;
      OlderStaysDistinct(h[..n], current);
      OlderPaths(h[..n], current, h[n].path);
      NotAmong(h[..n], h[n].path);
      var older := Older(h[..n], current);
      if Keepable(h[n], current) {
        assert forall i :: 0 <= i < |older| ==> older[i].path in Paths(older);
      }
    }
  }

  lemma NotAmong(h: seq<Entry>, p: Path)
    ensures p in Paths(h) <==> exists i :: 0 <= i < |h| && h[i].path == p
  {}

  lemma {:induction false} DistinctCount(h: seq<Entry>)
    requires DistinctPaths(h)
    ensures |Paths(h)| == |h|
  {
    if h == [] {
      assert Paths(h) == {};
    } else {
      var n := |h| - 1;
      DistinctCount(h[..n]);
      PathsAppend(h[..n], h[n]);
      assert h[..n] + [h[n]] == h;
      NotAmong(h[..n], h[n].path);
    }
  }

  /** All paths that a refresh to the given one has to decide about. */
  function Tracked(h: seq<Entry>, current: Path): set<Path> {
    Paths(h) - {NoPath} + {current}
  }

  lemma OlderCount(h: seq<Entry>, current: Path)
    requires DistinctPaths(h) && current != NoPath
    ensures DistinctPaths(Older(h, current)) && current !in Paths(Older(h, current))
    ensures 1 + |Older(h, current)| == |Tracked(h, current)|
  {
    var older := Older(h, current);
    OlderStaysDistinct(h, current);
    DistinctCount(older);
    forall p: Path ensures p in Paths(older) <==> p in Tracked(h, current) - {current} {
      OlderPaths(h, current, p);
    }
    assert Paths(older) == Tracked(h, current) - {current};
  }

  /** Without repeated paths exactly the smaller of their number and the limit stays, and no path is repeated. */
  lemma KeptCount(h: seq<Entry>, current: Entry, retain: int)
    requires DistinctPaths(h) && current.path != NoPath
    ensures var r := NewHistory(h, current, retain);
            var limit := if retain <= 1 then 1 else retain;
            var all := |Tracked(h, current.path)|;
            DistinctPaths(r) && |r| == if all <= limit then all else limit
  {
    OlderCount(h, current.path);
    NotAmong(Older(h, current.path), current.path);
  }

  /** As long as all of them fit, nothing is stale. */
  lemma NothingStaleWhileRoom(h: seq<Entry>, previous: Path, current: Path, retain: int, p: Path)
    requires DistinctPaths(h) && current != NoPath && (previous == NoPath || previous in Paths(h))
    requires |Tracked(h, current)| <= if retain <= 1 then 1 else retain
    ensures !IsStale(h, previous, current, retain, p)
  {
    OlderCount(h, current);
    OlderPaths(h, current, p);
  }
}
