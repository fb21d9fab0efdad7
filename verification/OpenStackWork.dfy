/**
 * The work that cleanup still has to ask for: resources whose delete was not requested and the
 * stage of the pinned image. Nobody else ever adds to it, not even in the middle of a reconcile.
 */
module OpenStackWork {
  import opened Common
  import opened OpenStackTypes
  import opened OpenStackWorker
  import opened OpenStackCache
  import opened OpenStackRuns
  import opened OpenStackCleanup

  /** The part of the cluster that cleanup of one worker works off. */
  datatype Work = Work(policy: Policy, cloud: seq<Resource>, caches: Caches, images: Images, imageID: Option<CacheUid>)

  /** A resource of kind k exists and its delete was not requested. */
  ghost predicate Unasked(cloud: seq<Resource>, k: Kind) {
    exists i :: 0 <= i < |cloud| && cloud[i].kind == k && !cloud[i].gone && !cloud[i].deleteRequested
  }

  ghost function UnaskedWeight(cloud: seq<Resource>, k: Kind): nat {
    if Unasked(cloud, k) then 1 else 0
  }

  ghost function UnaskedResources(x: Work): nat {
    UnaskedWeight(x.cloud, Server) + UnaskedWeight(x.cloud, DiscoveryVolume) + UnaskedWeight(x.cloud, Port)
    + (if x.policy.retainOSVolume then 0 else UnaskedWeight(x.cloud, OSVolume))
  }

  /** The cache of the pinned image is no longer active and the image is gone. */
  predicate ImageDone(x: Work) {
    x.imageID.Some? && x.imageID.value in x.caches && x.caches[x.imageID.value].phase != Active &&
        !ImageExists(x.images, x.imageID.value)
  }

  /** 3: still to be tombstoned. 2: its image is still to be asked for. 1: only bookkeeping is left. */
  function ImageStage(x: Work): nat {
    if x.imageID == None then 1
    else
      var u := x.imageID.value;
      if u in x.caches && x.caches[u].phase == Active then 3
      else if ImageExists(x.images, u) && !x.images[u].deleteRequested then 2
      else 1
  }

  ghost function WorkLeft(x: Work): (n: nat)
    ensures 1 <= n <= 7
  {
    UnaskedResources(x) + ImageStage(x)
  }

  /** Every delete that was requested has taken effect. */
  ghost predicate ResourcesWent(cloud: seq<Resource>) {
    forall i :: 0 <= i < |cloud| && cloud[i].deleteRequested ==> cloud[i].gone
  }

  predicate ImageWent(x: Work) {
    x.imageID.Some? && ImageExists(x.images, x.imageID.value) ==> !x.images[x.imageID.value].deleteRequested
  }

  /** No work was added. */
  ghost predicate Shrinks(x: Work, y: Work) {
    && y.policy == x.policy && y.imageID == x.imageID
    && UnaskedResources(y) <= UnaskedResources(x) && ImageStage(y) <= ImageStage(x)
    && (ImageDone(x) ==> ImageDone(y))
  }

  lemma ShrinksOn()
    ensures forall x :: Shrinks(x, x)
    ensures forall x, y, z :: Shrinks(x, y) && Shrinks(y, z) ==> Shrinks(x, z)
  {}

  lemma MovesShrinkUnasked(x: Work, y: Work)
    requires CloudMoves(x.cloud, y.cloud) && x.policy == y.policy
    ensures UnaskedResources(y) <= UnaskedResources(x)
  {
    forall k: Kind ensures Unasked(y.cloud, k) ==> Unasked(x.cloud, k) {}
  }

  lemma RequestedStaysRequested(s: State, a: Action, u: CacheUid)
    requires Enabled(s, a) && ImageExists(s.images, u) && s.images[u].deleteRequested
    ensures u in Next(s, a).images && Next(s, a).images[u].deleteRequested
  {}

  /** No step of anybody moves an image back. */
  lemma ImageStageNeverRises(s: State, a: Action, x: Work, y: Work)
    requires Inv(s) && Enabled(s, a) && x.imageID == y.imageID && (x.imageID.Some? ==> x.imageID.value in s.caches)
    requires x.caches == s.caches && x.images == s.images && y.caches == Next(s, a).caches &&
             y.images == Next(s, a).images
    ensures ImageStage(y) <= ImageStage(x) && (ImageDone(x) ==> ImageDone(y))
  {
    hide Inv, Enabled, Next;
    if x.imageID.Some? && s.caches[x.imageID.value].phase != Active {
      var u := x.imageID.value;
      InvariantViews(s);
      StepKeepsTombstone(s, a, u);
      if !ImageExists(s.images, u) && ImageExists(Next(s, a).images, u) {
        ImageCreatedOnlyWhileActive(s, a, u);
      }
      if ImageExists(s.images, u) && s.images[u].deleteRequested {
        RequestedStaysRequested(s, a, u);
      }
    }
  }

  /** The status a reconcile works on: the one in memory, or the stored one between reconciles. */
  function CurrentStatus(wk: Worker): Status {
    if wk.mem.Some? then wk.mem.value.status else wk.status
  }

  function WorkOf(s: State, w: WorkerUid): Work
    requires w in s.workers
  {
    var wk := s.workers[w];
    Work(wk.policy, wk.cloud, s.caches, s.images, CurrentStatus(wk).imageID)
  }

  /** Every delete that cleanup of w asked for, or that was asked for its image, has taken effect. */
  ghost predicate DeletesTookEffect(s: State, w: WorkerUid) {
    w in s.workers ==> ResourcesWent(s.workers[w].cloud) && ImageWent(WorkOf(s, w))
  }

  /** What anybody but the worker does adds no work, also in the middle of a reconcile. */
  lemma OthersAddNoWork(s: State, a: Action, w: WorkerUid, x: Work, y: Work)
    requires CleanupInv(s) && Enabled(s, a) && w in s.workers && !TakenBy(a, w)
    requires x.imageID == CurrentStatus(s.workers[w]).imageID
    requires x == Work(s.workers[w].policy, s.workers[w].cloud, s.caches, s.images, x.imageID)
    requires w in Next(s, a).workers
    requires y == Work(x.policy, Next(s, a).workers[w].cloud, Next(s, a).caches, Next(s, a).images, x.imageID)
    ensures Shrinks(x, y)
  {
    hide Enabled, Next, UnaskedResources, ImageStage, ImageDone;
    OthersLeaveWorkerAlone(s, a, w);
    MovesShrinkUnasked(x, y);
    assert WorkerNamed(s.caches, s.workers[w]);
    hide Inv;
    ImageStageNeverRises(s, a, x, y);
  }

  /** A cache that does not become active again adds no work, and leaving the active phase is progress. */
  lemma CacheMovesOn(x: Work, u: CacheUid, y: Work)
    requires u in x.caches && u in y.caches && y == x.(caches := x.caches[u := y.caches[u]])
    requires y.caches[u].phase == Active ==> x.caches[u].phase == Active
    ensures Shrinks(x, y)
    ensures x.caches[u].phase == Active && x.imageID == Some(u) ==>
              !ImageDone(x) && (y.caches[u].phase != Active ==> ImageStage(y) < ImageStage(x))
  {}

  /** Asking for the delete of a resource that was found leaves less to ask for. */
  lemma AskingShrinks(x: Work, id: nat, y: Work, z: Work)
    requires id < |x.cloud| && OneOfEachKind(x.cloud) && !x.cloud[id].gone && !x.cloud[id].deleteRequested
    requires x.cloud[id].kind == OSVolume ==> !x.policy.retainOSVolume
    requires CloudMoves(x.cloud, y.cloud) && z.cloud == y.cloud[id := y.cloud[id].(deleteRequested := true)] &&
             z.policy == x.policy
    ensures UnaskedResources(z) < UnaskedResources(x)
  {
    assert Unasked(x.cloud, x.cloud[id].kind);
    forall k: Kind ensures Unasked(z.cloud, k) ==> Unasked(x.cloud, k) && k != x.cloud[id].kind {
      if Unasked(z.cloud, k) {
        var i :| 0 <= i < |z.cloud| && z.cloud[i].kind == k && !z.cloud[i].gone && !z.cloud[i].deleteRequested;
        assert x.cloud[i].kind == k && !x.cloud[i].gone && !x.cloud[i].deleteRequested;
      }
    }
  }

  /** The same where the resource may have been asked for or gone before. */
  lemma AskedLess(x: Work, id: nat, y: Work, z: Work)
    requires id < |x.cloud| && OneOfEachKind(x.cloud) && (x.cloud[id].kind == OSVolume ==> !x.policy.retainOSVolume)
    requires CloudMoves(x.cloud, y.cloud) && z == y.(cloud := y.cloud[id := y.cloud[id].(deleteRequested := true)])
    requires y.policy == x.policy
    ensures Shrinks(y, z)
    ensures !x.cloud[id].gone && !x.cloud[id].deleteRequested ==> UnaskedResources(z) < UnaskedResources(x)
  {
    forall k: Kind ensures Unasked(z.cloud, k) ==> Unasked(y.cloud, k) {
      if Unasked(z.cloud, k) {
        var i :| 0 <= i < |z.cloud| && z.cloud[i].kind == k && !z.cloud[i].gone && !z.cloud[i].deleteRequested;
        assert y.cloud[i] == z.cloud[i];
      }
    }
    if !x.cloud[id].gone && !x.cloud[id].deleteRequested {
      AskingShrinks(x, id, y, z);
    }
  }

  lemma ShrinksMeans(x: Work, y: Work)
    requires Shrinks(x, y)
    ensures UnaskedResources(y) <= UnaskedResources(x) && ImageStage(y) <= ImageStage(x) && WorkLeft(y) <= WorkLeft(x)
    ensures y.policy == x.policy && y.imageID == x.imageID && (ImageDone(x) ==> ImageDone(y))
  {}

  /** One pass from work x to work y: no work is added, and an effective pass takes some off or is the last one. */
  ghost predicate Worked(x: Work, y: Work, removed: bool, effective: bool) {
    WorkLeft(y) <= WorkLeft(x) && (effective ==> removed || WorkLeft(y) < WorkLeft(x))
  }

  lemma WorkedBetween(x: Work, x': Work, y: Work, y': Work, removed: bool, effective: bool, effective': bool)
    requires Shrinks(x, x') && Worked(x', y, removed, effective) && Shrinks(y, y') && (effective' ==> effective)
    ensures Worked(x, y', removed, effective')
  {
    ShrinksMeans(x, x');
    ShrinksMeans(y, y');
  }

  /** A release that is not done yet leaves less work, if the image's delete had taken effect before. */
  lemma ReleaseLeavesLess(x: Work, y: Work, z: Work)
    requires Shrinks(x, y) && Shrinks(y, z)
    ensures (&& ImageWent(x) && x.imageID.Some? && x.imageID.value in x.caches && !ImageDone(y)
             && (ImageStage(z) == 1 || ImageStage(z) < ImageStage(y))) ==> WorkLeft(z) < WorkLeft(x)
  {
    hide UnaskedResources;
  }
}
