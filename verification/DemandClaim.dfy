/**
 * An AgentMachine is demand for one worker. Reconcilers that may hold stale copies claim it for
 * one infrastructure pool under its resourceVersion, and only then create a worker for it.
 */
module DemandClaim {
  import opened Common

  datatype Provider = OpenStack | Vsphere

  /** A pool lives in one namespace; its UID is never reused. */
  datatype Pool = Pool(provider: Provider, uid: nat, namespace: nat)

  /** The demand-claim annotation. */
  datatype Claim = Claim(provider: Provider, pool: nat)

  function ClaimOf(p: Pool): Claim {
    Claim(p.provider, p.uid)
  }

  datatype Machine = Machine(version: nat, claim: Option<Claim>, gone: bool)

  /** A worker named after the AgentMachine UID in the pool's namespace. */
  datatype WorkerName = WorkerName(namespace: nat, am: nat)

  /** A creation that took place, by either provider. */
  datatype Creation = Creation(am: nat, provider: Provider, pool: nat)

  /** One reconcile: the copy of the AgentMachine that it read, and whether its claim succeeded. */
  datatype Process = Process(am: nat, version: nat, claim: Option<Claim>, pool: Pool, claimed: bool)

  datatype State = State(
    machines: map<nat, Machine>,
    pools: map<nat, Pool>,
    workers: map<WorkerName, nat>,
    created: seq<Creation>,
    processes: map<nat, Process>)

  const EMPTY := State(map[], map[], map[], [], map[])

  datatype Action =
    | MachineAppears(am: nat)
    | MachineChanges(am: nat)
    | MachineVanishes(am: nat)
    | PoolAppears(pool: Pool)
    | WorkerVanishes(name: WorkerName)
    // one reconcile
    | Read(p: nat, am: nat, uid: nat)
    | OwnClaim(p: nat)
    | PatchClaim(p: nat)
    | CreateOpenStackAgent(p: nat)
    | CreateVsphereAgent(p: nat)
    | End(p: nat)

  predicate Enabled(s: State, a: Action) {
    match a
    case MachineAppears(am) => am !in s.machines
    case MachineChanges(am) => am in s.machines && !s.machines[am].gone
    case MachineVanishes(am) => am in s.machines
    case PoolAppears(pool) => pool.uid !in s.pools
    case WorkerVanishes(n) => n in s.workers
    case Read(p, am, uid) => p !in s.processes && am in s.machines && uid in s.pools
    case OwnClaim(p) => p in s.processes && s.processes[p].claim == Some(ClaimOf(s.processes[p].pool))
    case PatchClaim(p) =>
      && p in s.processes && s.processes[p].claim == None
      && s.processes[p].am in s.machines && !s.machines[s.processes[p].am].gone
      && s.machines[s.processes[p].am].version == s.processes[p].version
    case CreateOpenStackAgent(p) =>
      && p in s.processes && s.processes[p].claimed && s.processes[p].pool.provider == OpenStack
      && WorkerName(s.processes[p].pool.namespace, s.processes[p].am) !in s.workers
    case CreateVsphereAgent(p) =>
      p in s.processes && s.processes[p].claimed && s.processes[p].pool.provider == Vsphere
    case End(p) => p in s.processes
  }

  function Next(s: State, a: Action): State
    requires Enabled(s, a)
  {
    match a
    case MachineAppears(am) => s.(machines := s.machines[am := Machine(0, None, false)])
    case MachineChanges(am) => s.(machines := s.machines[am := s.machines[am].(version := s.machines[am].version + 1)])
    case MachineVanishes(am) => s.(machines := s.machines[am := s.machines[am].(gone := true)])
    case PoolAppears(pool) => s.(pools := s.pools[pool.uid := pool])
    case WorkerVanishes(n) => s.(workers := s.workers - {n})
    case Read(p, am, uid) =>
      s.(processes := s.processes[p := Process(am, s.machines[am].version, s.machines[am].claim, s.pools[uid], false)])
    case OwnClaim(p) => s.(processes := s.processes[p := s.processes[p].(claimed := true)])
    case PatchClaim(p) =>
      var q := s.processes[p];
      s.(machines := s.machines[q.am := Machine(q.version + 1, Some(ClaimOf(q.pool)), false)],
         processes := s.processes[p := q.(claimed := true, version := q.version + 1, claim := Some(ClaimOf(q.pool)))])
    case CreateOpenStackAgent(p) =>
      var q := s.processes[p];
      s.(workers := s.workers[WorkerName(q.pool.namespace, q.am) := q.pool.uid],
         created := s.created + [Creation(q.am, OpenStack, q.pool.uid)])
    case CreateVsphereAgent(p) =>
      var q := s.processes[p];
      s.(created := s.created + [Creation(q.am, Vsphere, q.pool.uid)])
    case End(p) => s.(processes := s.processes - {p})
  }

  // ---------- The invariant ----------

  ghost predicate Claimed(s: State, am: nat, c: Claim) {
    am in s.machines && s.machines[am].claim == Some(c)
  }

  /** A copy may be old, but a claim on it is still the stored one. */
  ghost predicate ProcessOK(s: State, q: Process) {
    && q.am in s.machines && q.pool.uid in s.pools && s.pools[q.pool.uid] == q.pool
    && q.version <= s.machines[q.am].version
    && (q.claim.Some? ==> Claimed(s, q.am, q.claim.value))
    && (q.version == s.machines[q.am].version ==> q.claim == s.machines[q.am].claim)
    && (q.claimed ==> Claimed(s, q.am, ClaimOf(q.pool)))
  }

  /** A worker under the controller's name belongs to the claimed pool, in that pool's namespace. */
  ghost predicate WorkerOK(s: State, n: WorkerName)
    requires n in s.workers
  {
    && Claimed(s, n.am, Claim(OpenStack, s.workers[n]))
    && s.workers[n] in s.pools && s.pools[s.workers[n]].namespace == n.namespace
  }

  ghost predicate Inv(s: State) {
    && (forall uid :: uid in s.pools ==> s.pools[uid].uid == uid)
    && (forall p :: p in s.processes ==> ProcessOK(s, s.processes[p]))
    && (forall n :: n in s.workers ==> WorkerOK(s, n))
    && (forall i :: 0 <= i < |s.created| ==>
          Claimed(s, s.created[i].am, Claim(s.created[i].provider, s.created[i].pool)))
  }

  /** A claim, once stored, is never changed or removed. */
  lemma StepKeepsClaim(s: State, a: Action, am: nat, c: Claim)
    requires (forall p :: p in s.processes ==> ProcessOK(s, s.processes[p])) && Enabled(s, a) && Claimed(s, am, c)
    ensures Claimed(Next(s, a), am, c)
  {}

  lemma StepKeepsProcesses(s: State, a: Action)
    requires Inv(s) && Enabled(s, a)
    ensures forall p :: p in Next(s, a).processes ==> ProcessOK(Next(s, a), Next(s, a).processes[p])
  {}

  lemma StepKeepsWorkers(s: State, a: Action)
    requires Inv(s) && Enabled(s, a)
    ensures forall n :: n in Next(s, a).workers ==> WorkerOK(Next(s, a), n)
  {}

  lemma StepKeepsCreations(s: State, a: Action)
    requires Inv(s) && Enabled(s, a)
    ensures var s' := Next(s, a);
            forall i :: 0 <= i < |s'.created| ==>
                Claimed(s', s'.created[i].am, Claim(s'.created[i].provider, s'.created[i].pool))
  {}

  lemma StepKeepsInv(s: State, a: Action)
    requires Inv(s) && Enabled(s, a)
    ensures Inv(Next(s, a))
  {
    StepKeepsProcesses(s, a);
    StepKeepsWorkers(s, a);
    StepKeepsCreations(s, a);
  }

  // ---------- Whole runs ----------

  function Run(s: State, log: seq<Action>): Option<State>
    decreases |log|
  {
    if log == [] then Some(s)
    else if Enabled(s, log[0]) then Run(Next(s, log[0]), log[1..])
    else None
  }

  ghost predicate Reachable(s: State) {
    exists log :: Run(EMPTY, log) == Some(s)
  }

  lemma {:induction false} RunKeepsInv(s: State, log: seq<Action>, s': State)
    requires Inv(s) && Run(s, log) == Some(s')
    ensures Inv(s')
    decreases |log|
  {
    hide Inv, Enabled, Next;
    if log != [] {
      StepKeepsInv(s, log[0]);
      RunKeepsInv(Next(s, log[0]), log[1..], s');
    }
  }

  lemma ReachableInv(s: State)
    requires Reachable(s)
    ensures Inv(s)
  {
    var log :| Run(EMPTY, log) == Some(s);
    RunKeepsInv(EMPTY, log, s);
  }

  lemma {:induction false} RunThen(s: State, log: seq<Action>, mid: State, a: Action)
    requires Run(s, log) == Some(mid) && Enabled(mid, a)
    ensures Run(s, log + [a]) == Some(Next(mid, a))
    decreases |log|
  {
    hide Enabled, Next;
    if log == [] {
      assert [a][1..] == [] && Run(Next(s, a), []) == Some(Next(s, a));
    } else {
      assert (log + [a])[1..] == log[1..] + [a];
      RunThen(Next(s, log[0]), log[1..], mid, a);
    }
  }

  lemma StaysReachable(s: State, a: Action)
    requires Reachable(s) && Enabled(s, a)
    ensures Reachable(Next(s, a))
  {
    var log :| Run(EMPTY, log) == Some(s);
    RunThen(EMPTY, log, s, a);
  }

  /** Some run leads from one state to the other. */
  ghost predicate Leads(s: State, s': State) {
    exists log :: Run(s, log) == Some(s')
  }

  lemma StandsStill(s: State)
    ensures Leads(s, s)
  {
    assert Run(s, []) == Some(s);
  }

  lemma {:induction false} RunConcat(s: State, x: seq<Action>, mid: State, y: seq<Action>, s': State)
    requires Run(s, x) == Some(mid) && Run(mid, y) == Some(s')
    ensures Run(s, x + y) == Some(s')
    decreases |x|
  {
    hide Enabled, Next;
    if x == [] {
      assert x + y == y;
    } else {
      RunConcat(Next(s, x[0]), x[1..], mid, y, s');
      assert (x + y)[1..] == x[1..] + y;
    }
  }

  lemma LeadsOn()
    ensures forall a, b, c :: Leads(a, b) && Leads(b, c) ==> Leads(a, c)
  {
    forall a, b, c | Leads(a, b) && Leads(b, c) ensures Leads(a, c) {
      var x :| Run(a, x) == Some(b);
      var y :| Run(b, y) == Some(c);
      RunConcat(a, x, b, y, c);
    }
  }

  lemma StepLeads(s: State, a: Action)
    requires Enabled(s, a)
    ensures Leads(s, Next(s, a))
  {
    assert Run(s, []) == Some(s);
    RunThen(s, [], s, a);
  }

  /** The claim of an AgentMachine is write-once under any interleaving with stale copies. */
  lemma {:induction false} ClaimIsWriteOnce(s: State, log: seq<Action>, s': State, am: nat, c: Claim)
    requires Inv(s) && Run(s, log) == Some(s') && Claimed(s, am, c)
    ensures Claimed(s', am, c)
    decreases |log|
  {
    hide Enabled, Next;
    if log != [] {
      StepKeepsClaim(s, log[0], am, c);
      StepKeepsInv(s, log[0]);
      ClaimIsWriteOnce(Next(s, log[0]), log[1..], s', am, c);
    }
  }

  /** Every worker ever created for an AgentMachine was created for the one pool that claimed it. */
  lemma WorkersServeTheClaimedPool(s: State, i: nat, j: nat)
    requires Reachable(s) && i < |s.created| && j < |s.created| && s.created[i].am == s.created[j].am
    ensures s.created[i] == s.created[j]
    ensures Claimed(s, s.created[i].am, Claim(s.created[i].provider, s.created[i].pool))
  {
    ReachableInv(s);
  }

  /** At most one worker under a controller-given name exists for an AgentMachine, in any namespace. */
  lemma OneNamedWorkerPerMachine(s: State, m: WorkerName, n: WorkerName)
    requires Reachable(s) && m in s.workers && n in s.workers && m.am == n.am
    ensures m == n
  {
    ReachableInv(s);
    assert WorkerOK(s, m) && WorkerOK(s, n);
  }

  /** A second claimant that read the AgentMachine unclaimed gets a conflict. */
  lemma SecondClaimConflicts(s: State, p: nat, q: nat)
    requires Enabled(s, PatchClaim(p)) && Enabled(s, PatchClaim(q)) && p != q && s.processes[p].am == s.processes[q].am
    ensures !Enabled(Next(s, PatchClaim(p)), PatchClaim(q))
  {}
}
