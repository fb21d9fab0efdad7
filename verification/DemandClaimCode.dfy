/** AgentMachine reconciliation as code; before every API call other reconcilers may act. */
module DemandClaimCode {
  import opened Common
  import opened DemandClaim

  /** An OpenStackAgent in a (possibly stale) list. */
  datatype Listed = Listed(am: nat, pool: nat)

  datatype Candidates = ForeignWorker | Found(count: nat)

  function ForMachine(list: seq<Listed>, am: nat, n: nat): set<int>
    requires n <= |list|
  {
    set i | 0 <= i < n && list[i].am == am
  }

  /** The loop over existing workers: another pool's worker is an error, own workers are counted. */
  method CountCandidates(list: seq<Listed>, am: nat, pool: nat) returns (r: Candidates)
    ensures r.ForeignWorker? <==> exists i :: 0 <= i < |list| && list[i].am == am && list[i].pool != pool
    ensures r.Found? ==> r.count == |ForMachine(list, am, |list|)|
  {
    var matches := 0;
    assert ForMachine(list, am, 0) == {};
    for i := 0 to |list|
      invariant matches == |ForMachine(list, am, i)|
      invariant forall j :: 0 <= j < i && list[j].am == am ==> list[j].pool == pool
    {
      ghost var before := ForMachine(list, am, i);
      assert ForMachine(list, am, i + 1) == if list[i].am == am then before + {i} else before;
      if list[i].am == am {
        if list[i].pool != pool {
          return ForeignWorker;
        }
        matches := matches + 1;
      }
    }
    return Found(matches);
  }

  /** Which API calls of one reconcile succeed. A write that fails may have landed. */
  datatype Calls = Calls(claimed: bool, pinned: bool, listed: bool, created: bool, readBack: bool)

  /** What stands under one of the two names of a VsphereAgent. */
  datatype Slot = Free | SameDemand | OtherDemand

  datatype Served =
    | Idle
    | InList
    | Made
    | Existing
    | SeveralPools
    | ClaimedElsewhere
    | ClaimConflict
    | ForeignListed
    | SeveralListed
    | Vanished
    | NamesTaken
    | CallFailed

  predicate OwnAction(a: Action, p: nat) {
    (a.Read? || a.OwnClaim? || a.PatchClaim? || a.CreateOpenStackAgent? || a.CreateVsphereAgent? || a.End?) && a.p == p
  }

  lemma OthersKeepProcess(s: State, a: Action, p: nat)
    requires Enabled(s, a) && !OwnAction(a, p)
    ensures p in Next(s, a).processes <==> p in s.processes
    ensures p in s.processes ==> Next(s, a).processes[p] == s.processes[p]
  {}

  datatype Dispatch = NoPool | Ambiguous | ToOpenStack(pool: nat) | ToVsphere(pool: nat)

  /** Exactly one matching pool of either kind is served; several vSphere or mixed ones are an error. */
  function Choose(openStack: seq<nat>, vsphere: seq<nat>): (r: Dispatch)
    ensures r.ToOpenStack? <==> |openStack| == 1 && |vsphere| == 0
    ensures r.ToVsphere? <==> |openStack| == 0 && |vsphere| == 1
    ensures r.NoPool? <==> |openStack| + |vsphere| == 0
    ensures r.ToOpenStack? ==> r.pool in openStack
    ensures r.ToVsphere? ==> r.pool in vsphere
  {
    if |openStack| > 0 && |vsphere| + |openStack| > 1 then Ambiguous
    else if |openStack| == 1 then ToOpenStack(openStack[0])
    else if |vsphere| == 0 then NoPool
    else if |vsphere| > 1 then Ambiguous
    else ToVsphere(vsphere[0])
  }

  class DemandReconciler {
    const p: nat
    var s: State

    ghost predicate Legal() reads this {
      Reachable(s)
    }

    constructor (id: nat, now: State)
      requires Reachable(now)
      ensures Legal() && p == id && s == now
    {
      p, s := id, now;
    }

    method Take(a: Action)
      requires Legal() && Enabled(s, a)
      modifies this
      ensures Legal() && s == Next(old(s), a) && Leads(old(s), s)
    {
      StepLeads(s, a);
      StaysReachable(s, a);
      s := Next(s, a);
    }

    method Interfere()
      requires Legal()
      modifies this
      ensures Legal() && Leads(old(s), s)
      ensures p in s.processes <==> p in old(s.processes)
      ensures p in s.processes ==> s.processes[p] == old(s.processes[p])
    {
      hide Enabled, Next, Leads;
      LeadsOn();
      StandsStill(s);
      var n: nat := *;
      while n > 0
        invariant Legal() && Leads(old(s), s)
        invariant p in s.processes <==> p in old(s.processes)
        invariant p in s.processes ==> s.processes[p] == old(s.processes[p])
      {
        var a: Action := *;
        if Enabled(s, a) && !OwnAction(a, p) {
          OthersKeepProcess(s, a, p);
          Take(a);
        }
        n := n - 1;
      }
    }

    /** What the running process knows about its AgentMachine. */
    lemma ProcessIsOK()
      requires Legal() && p in s.processes
      ensures ProcessOK(s, s.processes[p])
    {
      ReachableInv(s);
    }

    /**
     * Succeeds only if the stored claim names this pool. It fails only for a claim of another pool,
     * for a copy that is no longer current, or when the patch fails.
     */
    method ClaimDemand(x: Calls) returns (r: Served)
      requires Legal() && p in s.processes && !s.processes[p].claimed
      modifies this
      ensures Legal() && p in s.processes && Leads(old(s), s)
      ensures s.processes[p].am == old(s.processes[p].am) && s.processes[p].pool == old(s.processes[p].pool)
      ensures var q := old(s.processes[p]);
              match r
              case Made => s.processes[p].claimed && Claimed(s, q.am, Claim(q.pool.provider, q.pool.uid))
              case ClaimedElsewhere =>
                exists c :: q.claim == Some(c) && c != Claim(q.pool.provider, q.pool.uid) && Claimed(s, q.am, c)
              case ClaimConflict =>
                q.claim == None && q.am in s.machines &&
                    (s.machines[q.am].gone || s.machines[q.am].version != q.version)
              case CallFailed => q.claim == None && !x.claimed
              case _ => false
    {
      hide Leads;
      LeadsOn();
      StandsStill(s);
      var q := s.processes[p];
      ProcessIsOK();
      if q.claim.Some? {
        if q.claim.value != ClaimOf(q.pool) {
          return ClaimedElsewhere;
        }
        Take(OwnClaim(p));
        ProcessIsOK();
        return Made;
      }
      Interfere();
      ProcessIsOK();
      if !Enabled(s, PatchClaim(p)) {
        return ClaimConflict;
      }
      var landed: bool := *;
      if x.claimed || landed {
        Take(PatchClaim(p));
        ProcessIsOK();
      }
      return if x.claimed then Made else CallFailed;
    }

    /**
     * Creates the worker named after the AgentMachine unless one is listed. If that name exists
     * already, it is this pool's worker: an ownership mismatch cannot occur. Success means a worker:
     * a listed one, a new one or the existing one of that name.
     */
    method EnsureOpenStackAgent(list: seq<Listed>, x: Calls) returns (r: Served)
      requires Legal() && p in s.processes && !s.processes[p].claimed && s.processes[p].pool.provider == OpenStack
      modifies this
      ensures Legal() && p in s.processes && Leads(old(s), s)
      ensures r == InList || r == Made || r == Existing ==>
                Claimed(s, old(s.processes[p].am), Claim(OpenStack, old(s.processes[p].pool.uid)))
      ensures var q := old(s.processes[p]);
              var name := WorkerName(q.pool.namespace, q.am);
              match r
              case InList => |ForMachine(list, q.am, |list|)| == 1
              case Made =>
                && name in s.workers && s.workers[name] == q.pool.uid
                && |s.created| > 0 && s.created[|s.created| - 1] == Creation(q.am, OpenStack, q.pool.uid)
              case Existing => name in s.workers && s.workers[name] == q.pool.uid
              case ClaimedElsewhere =>
                exists c :: q.claim == Some(c) && c != Claim(OpenStack, q.pool.uid) && Claimed(s, q.am, c)
              case ClaimConflict => q.claim == None
              case ForeignListed => exists i :: 0 <= i < |list| && list[i].am == q.am && list[i].pool != q.pool.uid
              case SeveralListed => |ForMachine(list, q.am, |list|)| > 1
              case Vanished => name !in s.workers
              case CallFailed => !(x.claimed && x.pinned && x.listed && x.created && x.readBack)
              case _ => false
    {
      hide Leads;
      LeadsOn();
      StandsStill(s);
      r := ClaimDemand(x);
      if r != Made {
        return;
      }
      if !x.pinned || !x.listed {
        return CallFailed;
      }
      var q := s.processes[p];
      var candidates := CountCandidates(list, q.am, q.pool.uid);
      if candidates.ForeignWorker? {
        return ForeignListed;
      }
      if candidates.count > 1 {
        return SeveralListed;
      }
      if candidates.count == 1 {
        return InList;
      }
      r := CreateOrFind(x);
    }

    method CreateOrFind(x: Calls) returns (r: Served)
      requires Legal() && p in s.processes && s.processes[p].claimed && s.processes[p].pool.provider == OpenStack
      modifies this
      ensures Legal() && p in s.processes && Leads(old(s), s)
      ensures Claimed(s, old(s.processes[p].am), Claim(OpenStack, old(s.processes[p].pool.uid)))
      ensures var q := old(s.processes[p]);
              var name := WorkerName(q.pool.namespace, q.am);
              match r
              case Made =>
                && name in s.workers && s.workers[name] == q.pool.uid
                && |s.created| > 0 && s.created[|s.created| - 1] == Creation(q.am, OpenStack, q.pool.uid)
              case Existing => name in s.workers && s.workers[name] == q.pool.uid
              case Vanished => name !in s.workers
              case CallFailed => !x.created || !x.readBack
              case _ => false
    {
      hide Leads;
      LeadsOn();
      StandsStill(s);
      Interfere();
      ProcessIsOK();
      var q := s.processes[p];
      var name := WorkerName(q.pool.namespace, q.am);
      if name !in s.workers {
        var landed: bool := *;
        if x.created || landed {
          Take(CreateOpenStackAgent(p));
          ProcessIsOK();
        }
        return if x.created then Made else CallFailed;
      }
      Interfere();
      ProcessIsOK();
      if !x.readBack {
        return CallFailed;
      }
      if name !in s.workers {
        return Vanished;
      }
      ExistingIsOwn();
      return Existing;
    }

    lemma ExistingIsOwn()
      requires Legal() && p in s.processes && s.processes[p].claimed
      requires WorkerName(s.processes[p].pool.namespace, s.processes[p].am) in s.workers
      ensures s.workers[WorkerName(s.processes[p].pool.namespace, s.processes[p].am)] == s.processes[p].pool.uid
    {
      ReachableInv(s);
      assert ProcessOK(s, s.processes[p]);
      assert WorkerOK(s, WorkerName(s.processes[p].pool.namespace, s.processes[p].am));
    }

    /** Tries the AgentMachine name, then the alternate name; at most one VsphereAgent is created. */
    method EnsureVsphereAgent(listed: bool, slots: seq<Slot>, x: Calls) returns (r: Served)
      requires Legal() && p in s.processes && !s.processes[p].claimed && s.processes[p].pool.provider == Vsphere
      requires |slots| == 2
      modifies this
      ensures Legal() && p in s.processes && Leads(old(s), s)
      ensures r == InList || r == Made || r == Existing ==>
                Claimed(s, old(s.processes[p].am), Claim(Vsphere, old(s.processes[p].pool.uid)))
      ensures var q := old(s.processes[p]);
              match r
              case InList => listed
              case Made =>
                && (slots[0] == Free || (slots[0] == OtherDemand && slots[1] == Free))
                && |s.created| > 0 && s.created[|s.created| - 1] == Creation(q.am, Vsphere, q.pool.uid)
              case Existing => slots[0] == SameDemand || (slots[0] == OtherDemand && slots[1] == SameDemand)
              case ClaimedElsewhere =>
                exists c :: q.claim == Some(c) && c != Claim(Vsphere, q.pool.uid) && Claimed(s, q.am, c)
              case ClaimConflict => q.claim == None
              case NamesTaken => slots[0] == OtherDemand && slots[1] == OtherDemand
              case CallFailed => !(x.claimed && x.pinned && x.listed && x.created && x.readBack)
              case _ => false
    {
      hide Leads;
      LeadsOn();
      StandsStill(s);
      r := ClaimDemand(x);
      if r != Made {
        return;
      }
      if !x.pinned || !x.listed {
        return CallFailed;
      }
      if listed {
        return InList;
      }
      var q := s.processes[p];
      for attempt := 0 to 2
        invariant Legal() && Leads(old(s), s) && p in s.processes && s.processes[p] == q && q.claimed
        invariant forall k :: 0 <= k < attempt ==> slots[k] == OtherDemand
      {
        Interfere();
        ProcessIsOK();
        if slots[attempt] == Free {
          var landed: bool := *;
          if x.created || landed {
            Take(CreateVsphereAgent(p));
            ProcessIsOK();
          }
          return if x.created then Made else CallFailed;
        }
        if !x.readBack {
          return CallFailed;
        }
        if slots[attempt] == SameDemand {
          return Existing;
        }
      }
      return NamesTaken;
    }

    method Begin(am: nat, uid: nat)
      requires Legal() && p !in s.processes && am in s.machines && uid in s.pools
      modifies this
      ensures Legal() && Leads(old(s), s) && p in s.processes
      ensures s.processes[p].am == am && !s.processes[p].claimed && s.processes[p].pool == old(s).pools[uid]
    {
      hide Leads;
      Take(Read(p, am, uid));
    }

    method Finish()
      requires Legal() && p in s.processes
      modifies this
      ensures Legal() && Leads(old(s), s) && p !in s.processes
      ensures s.machines == old(s.machines) && s.created == old(s.created)
    {
      hide Leads;
      Take(End(p));
    }

    /**
     * One reconcile: an AgentMachine that waits and matches exactly one pool is served by that pool,
     * and whatever is created for it belongs to the claimed pool.
     */
    method Reconcile(am: nat, waiting: bool, openStack: seq<nat>, vsphere: seq<nat>, list: seq<Listed>, listed: bool,
                     slots: seq<Slot>, x: Calls)
      returns (r: Served)
      requires Legal() && p !in s.processes && |slots| == 2
      requires forall i :: 0 <= i < |openStack| ==>
                 openStack[i] in s.pools && s.pools[openStack[i]].provider == OpenStack
      requires forall i :: 0 <= i < |vsphere| ==> vsphere[i] in s.pools && s.pools[vsphere[i]].provider == Vsphere
      modifies this
      ensures Legal() && p !in s.processes && Leads(old(s), s)
      ensures forall i :: 0 <= i < |s.created| && s.created[i].am == am ==>
                Claimed(s, am, Claim(s.created[i].provider, s.created[i].pool))
      ensures r == Idle <==> old(am !in s.machines) || !waiting || |openStack| + |vsphere| == 0
      ensures r == SeveralPools <==> r != Idle && |openStack| + |vsphere| > 1
      ensures r == InList || r == Made || r == Existing ==>
                match Choose(openStack, vsphere)
                case ToOpenStack(uid) => Claimed(s, am, Claim(OpenStack, uid))
                case ToVsphere(uid) => Claimed(s, am, Claim(Vsphere, uid))
                case _ => false
      ensures r == Made ==> exists i :: 0 <= i < |s.created| && s.created[i].am == am
      ensures r == CallFailed ==> !(x.claimed && x.pinned && x.listed && x.created && x.readBack)
    {
      hide Leads, Enabled, Next;
      LeadsOn();
      StandsStill(s);
      ReachableInv(s);
      var choice := Choose(openStack, vsphere);
      if am !in s.machines || !waiting || choice == NoPool {
        return Idle;
      }
      if choice == Ambiguous {
        return SeveralPools;
      }
      Begin(am, choice.pool);
      if choice.ToOpenStack? {
        r := EnsureOpenStackAgent(list, x);
      } else {
        r := EnsureVsphereAgent(listed, slots, x);
      }
      Finish();
      ReachableInv(s);
    }
  }
}
