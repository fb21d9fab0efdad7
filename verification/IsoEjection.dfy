/**
 * The ejection of installation media from a vSphere VM: a durable record with two checkpoints
 * (disconnectStarted, question) that guard three commands (disconnect, answer, eject).
 *
 * The environment's answers are given as scripts, so every failure, crash and retry is a choice
 * of script. IsoEjectionCode has the same steps on heap objects.
 */
module IsoEjection {
  import opened Common

  /**
   * The VM, its owner, its CD-ROM device and the ISO file recorded when ejection was authorized.
   * None stands for an empty string; an empty owner is not compared.
   */
  datatype Target = Target(uuid: Option<nat>, owner: Option<nat>, device: nat, iso: Option<nat>)

  /** ISOEjectionStatus. */
  datatype Op = Op(target: Target, disconnectStarted: bool, question: Option<nat>)

  /** A pending VM question; lock: it is the CD-lock question and offers Yes. */
  datatype Question = Question(id: Option<nat>, lock: bool)

  datatype Device = Device(key: nat, file: Option<nat>)

  datatype Details =
    | NotFound
    | Unreadable
    | Details(uuid: Option<nat>, owner: Option<nat>, devices: seq<Device>, question: Option<Question>)

  /** LandsButFails: the write is stored, but the caller sees an error or crashes. */
  datatype WriteOutcome = Fails | LandsButFails | Succeeds

  /** One poll of the disconnect loop. */
  datatype Tick = PollError | Poll(question: Option<Question>, write: WriteOutcome, answered: bool)

  /** Everything the environment answers during one EjectISO call. */
  datatype Script = Script(
    details: Details,
    lockWrite: WriteOutcome,
    lockAnswered: bool,
    startWrite: WriteOutcome,
    ticks: seq<Tick>,
    disconnected: bool,
    ejected: bool,
    observed: Details)

  /** A command sent to vSphere and the record that was durable at that moment. */
  datatype Event =
    | Disconnect(durable: Op)
    | Answer(id: nat, durable: Op)
    | Eject(durable: Op)

  /** PersistOp is the checkpoint that EjectISO asks for; PersistStatus is the closure it is given. */
  datatype Mode = PersistOp | PersistStatus

  /**
   * - op: the record that EjectISO works on
   * - status: the record in agent.Status
   * - shared: both are the same object
   * - durable: the record in the API server
   */
  datatype Sys = Sys(op: Op, status: Op, shared: bool, durable: Op, log: seq<Event>)

  /** Assigning a field of *op also changes agent.Status while they are one object. */
  function SetOp(s: Sys, op: Op): Sys {
    s.(op := op, status := if s.shared then op else s.status)
  }

  /** A successful status write replaces agent.Status by a deep copy. */
  function Checkpoint(s: Sys, mode: Mode, write: WriteOutcome): (Sys, bool) {
    var wanted := if mode == PersistOp then s.op else s.status;
    match write
    case Fails => (s, false)
    case LandsButFails => (s.(durable := wanted), false)
    case Succeeds => (s.(durable := wanted, status := wanted, shared := false), true)
  }

  function Issue(s: Sys, e: Event): Sys {
    s.(log := s.log + [e])
  }

  /** answerISOLock */
  function AnswerLock(s: Sys, mode: Mode, q: Question, write: WriteOutcome, answered: bool): (Sys, bool) {
    if !q.lock || q.id == None || (s.op.question.Some? && s.op.question != q.id) then (s, false)
    else if s.op.question.Some? then (Issue(s, Answer(q.id.value, s.durable)), answered)
    else
      var (s1, ok) := Checkpoint(SetOp(s, s.op.(question := q.id)), mode, write);
      if ok then (Issue(s1, Answer(q.id.value, s1.durable)), answered) else (s1, false)
  }

  /** The polls of disconnectInstallationMedia, after the command was started. */
  function PollLoop(s: Sys, mode: Mode, ticks: seq<Tick>, disconnected: bool): (Sys, bool)
    decreases |ticks|
  {
    if ticks == [] then (s, disconnected)
    else if ticks[0].PollError? then (s, false)
    else if ticks[0].question == None then PollLoop(s, mode, ticks[1..], disconnected)
    else
      var (s1, ok) := AnswerLock(s, mode, ticks[0].question.value, ticks[0].write, ticks[0].answered);
      if ok then PollLoop(s1, mode, ticks[1..], disconnected) else (s1, false)
  }

  /** The first device with the recorded key. */
  function FindDevice(devices: seq<Device>, key: nat): Option<Device> {
    if devices == [] then None
    else if devices[0].key == key then Some(devices[0])
    else FindDevice(devices[1..], key)
  }

  predicate SameVM(d: Details, target: Target) {
    d.Details? && d.uuid == target.uuid && (target.owner.Some? ==> d.owner == target.owner)
  }

  predicate Backs(devices: seq<Device>, target: Target) {
    exists i :: 0 <= i < |devices| && devices[i] == Device(target.device, target.iso)
  }

  /** The part of EjectISO after all checks: checkpoint, disconnect, eject, look again. */
  function DisconnectAndEject(s: Sys, mode: Mode, x: Script): (Sys, bool) {
    var (s1, ok) :=
      if s.op.disconnectStarted then (s, true)
      else Checkpoint(SetOp(s, s.op.(disconnectStarted := true)), mode, x.startWrite);
    if !ok then (s1, false)
    else
      var (s2, ok2) := PollLoop(Issue(s1, Disconnect(s1.durable)), mode, x.ticks, x.disconnected);
      if !ok2 then (s2, false)
      else
        var s3 := Issue(s2, Eject(s2.durable));
        (s3, x.ejected && x.observed.Details? && !Backs(x.observed.devices, s3.op.target))
  }

  function EjectISO(s: Sys, mode: Mode, x: Script): (Sys, bool) {
    if s.op.target.uuid == None || s.op.target.iso == None then (s, false)
    else if x.details == NotFound then (s, true)
    else if !SameVM(x.details, s.op.target) then (s, false)
    else
      var found := FindDevice(x.details.devices, s.op.target.device);
      if found == None || found.value.file == None then (s, true)
      else if found.value.file != s.op.target.iso then (s, false)
      else if x.details.question == None then DisconnectAndEject(s, mode, x)
      else if !s.op.disconnectStarted then (s, false)
      else
        var (s1, ok) := AnswerLock(s, mode, x.details.question.value, x.lockWrite, x.lockAnswered);
        if ok then DisconnectAndEject(s1, mode, x) else (s1, false)
  }

  // ---------- One reconcile, and any number of them ----------

  /** One ejection: its durable record, None once it is cleared, and the commands sent so far. */
  datatype Life = Life(record: Option<Op>, log: seq<Event>)

  /** The reconcile reads the record, works on it, and stores what agent.Status then holds. */
  function Reconcile(l: Life, mode: Mode, x: Script, write: WriteOutcome): Life {
    if l.record == None then l
    else
      var op := l.record.value;
      var (s, ok) := EjectISO(Sys(op, op, true, op, l.log), mode, x);
      var kept := if write == Fails then Some(s.durable) else if ok then None else Some(s.status);
      Life(kept, s.log)
  }

  function Attempts(l: Life, mode: Mode, xs: seq<(Script, WriteOutcome)>): Life
    decreases |xs|
  {
    if xs == [] then l else Attempts(Reconcile(l, mode, xs[0].0, xs[0].1), mode, xs[1..])
  }

  function NewEjection(target: Target): Life {
    Life(Some(Op(target, false, None)), [])
  }

  // ---------- The disconnect checkpoint, with either closure ----------

  ghost predicate DisconnectsRecorded(log: seq<Event>) {
    forall i :: 0 <= i < |log| && log[i].Disconnect? ==> log[i].durable.disconnectStarted
  }

  /** What the records in memory and in the API server have in common. */
  ghost predicate Consistent(s: Sys) {
    && (s.shared ==> s.op == s.status)
    && s.op.target == s.status.target == s.durable.target
    && (s.op.question.Some? ==> s.op.disconnectStarted)
    && (s.status.question.Some? ==> s.status.disconnectStarted)
    && (s.durable.question.Some? ==> s.durable.disconnectStarted)
    && DisconnectsRecorded(s.log)
  }

  /** Once started is durable, it stays so in every copy. */
  ghost predicate Started(s: Sys) {
    s.op.disconnectStarted && s.status.disconnectStarted && s.durable.disconnectStarted
  }

  lemma AnswerLockKeeps(s: Sys, mode: Mode, q: Question, write: WriteOutcome, answered: bool)
    requires Consistent(s) && Started(s)
    ensures var (s', _) := AnswerLock(s, mode, q, write, answered);
            Consistent(s') && Started(s') && s'.op.target == s.op.target
  {}

  lemma {:induction false} PollLoopKeeps(s: Sys, mode: Mode, ticks: seq<Tick>, disconnected: bool)
    requires Consistent(s) && Started(s)
    ensures var (s', _) := PollLoop(s, mode, ticks, disconnected);
            Consistent(s') && Started(s') && s'.op.target == s.op.target
    decreases |ticks|
  {
    if ticks != [] && ticks[0].Poll? {
      if ticks[0].question == None {
        PollLoopKeeps(s, mode, ticks[1..], disconnected);
      } else {
        AnswerLockKeeps(s, mode, ticks[0].question.value, ticks[0].write, ticks[0].answered);
        var (s1, ok) := AnswerLock(s, mode, ticks[0].question.value, ticks[0].write, ticks[0].answered);
        if ok {
          PollLoopKeeps(s1, mode, ticks[1..], disconnected);
        }
      }
    }
  }

  lemma DisconnectAndEjectKeeps(s: Sys, mode: Mode, x: Script)
    requires Consistent(s) && (s.op.disconnectStarted ==> Started(s))
    requires mode == PersistStatus ==> s.shared || s.op.disconnectStarted
    ensures var (s', _) := DisconnectAndEject(s, mode, x); Consistent(s') && s'.op.target == s.op.target
  {
    var (s1, ok) :=
      if s.op.disconnectStarted then (s, true)
      else Checkpoint(SetOp(s, s.op.(disconnectStarted := true)), mode, x.startWrite);
    assert Consistent(s1) && s1.op.target == s.op.target;
    if ok {
      PollLoopKeeps(Issue(s1, Disconnect(s1.durable)), mode, x.ticks, x.disconnected);
    }
  }

  lemma EjectISOKeeps(s: Sys, mode: Mode, x: Script)
    requires Consistent(s) && s.shared && s.durable == s.op
    ensures var (s', _) := EjectISO(s, mode, x); Consistent(s') && s'.op.target == s.op.target
  {
    if SameVM(x.details, s.op.target) {
      if x.details.question.Some? && s.op.disconnectStarted {
        AnswerLockKeeps(s, mode, x.details.question.value, x.lockWrite, x.lockAnswered);
        DisconnectAndEjectKeeps(AnswerLock(s, mode, x.details.question.value, x.lockWrite, x.lockAnswered).0, mode, x);
      } else {
        DisconnectAndEjectKeeps(s, mode, x);
      }
    }
  }

  ghost predicate LifeOK(l: Life) {
    && DisconnectsRecorded(l.log)
    && (l.record.Some? && l.record.value.question.Some? ==> l.record.value.disconnectStarted)
  }

  /** A disconnect is sent only after disconnectStarted is durable, over any retries and crashes. */
  lemma {:induction false} DisconnectOnlyAfterCheckpoint(l: Life, mode: Mode, xs: seq<(Script, WriteOutcome)>)
    requires LifeOK(l)
    ensures LifeOK(Attempts(l, mode, xs))
    decreases |xs|
  {
    if xs != [] {
      if l.record.Some? {
        var op := l.record.value;
        EjectISOKeeps(Sys(op, op, true, op, l.log), mode, xs[0].0);
      }
      DisconnectOnlyAfterCheckpoint(Reconcile(l, mode, xs[0].0, xs[0].1), mode, xs[1..]);
    }
  }

  // ---------- Answering a question ----------

  /** Every answer from position n on was sent while its question ID was durable. */
  ghost predicate RecordedFirst(log: seq<Event>, n: nat) {
    forall i :: n <= i < |log| && log[i].Answer? ==> log[i].durable.question == Some(log[i].id)
  }

  ghost predicate NeverRecordedFirst(log: seq<Event>, n: nat) {
    forall i :: n <= i < |log| && log[i].Answer? ==> log[i].durable.question == None
  }

  /** Every answer from position n on went to this question. */
  ghost predicate AllAnswer(log: seq<Event>, n: nat, q: Option<nat>) {
    forall i :: n <= i < |log| && log[i].Answer? ==> Some(log[i].id) == q
  }

  /** The next answer will be recorded: by a checkpoint that reaches the record, or because it already is. */
  ghost predicate Recordable(s: Sys, mode: Mode, n: nat) {
    && (mode == PersistOp || s.op.question.Some? || s.shared)
    && (s.shared ==> s.op == s.status)
    && s.op.question == s.durable.question == s.status.question
    && AllAnswer(s.log, n, s.op.question)
  }

  lemma AnswerLockRecords(s: Sys, mode: Mode, q: Question, write: WriteOutcome, answered: bool, n: nat)
    requires Recordable(s, mode, n) && RecordedFirst(s.log, n)
    ensures var (s', ok) := AnswerLock(s, mode, q, write, answered);
            && RecordedFirst(s'.log, n)
            && (ok ==> Recordable(s', mode, n))
            && (AllAnswer(s'.log, n, s'.status.question) && AllAnswer(s'.log, n, s'.durable.question))
  {}

  lemma {:induction false} PollLoopRecords(s: Sys, mode: Mode, ticks: seq<Tick>, disconnected: bool, n: nat)
    requires Recordable(s, mode, n) && RecordedFirst(s.log, n)
    ensures var (s', ok) := PollLoop(s, mode, ticks, disconnected);
            && RecordedFirst(s'.log, n)
            && (ok ==> Recordable(s', mode, n))
            && (AllAnswer(s'.log, n, s'.status.question) && AllAnswer(s'.log, n, s'.durable.question))
    decreases |ticks|
  {
    if ticks != [] && ticks[0].Poll? {
      if ticks[0].question == None {
        PollLoopRecords(s, mode, ticks[1..], disconnected, n);
      } else {
        AnswerLockRecords(s, mode, ticks[0].question.value, ticks[0].write, ticks[0].answered, n);
        var (s1, ok) := AnswerLock(s, mode, ticks[0].question.value, ticks[0].write, ticks[0].answered);
        if ok {
          PollLoopRecords(s1, mode, ticks[1..], disconnected, n);
        }
      }
    }
  }

  lemma DisconnectAndEjectRecords(s: Sys, mode: Mode, x: Script, n: nat)
    requires Recordable(s, mode, n) && RecordedFirst(s.log, n)
    requires mode == PersistOp || s.op.disconnectStarted
    ensures var (s', _) := DisconnectAndEject(s, mode, x);
            RecordedFirst(s'.log, n) && AllAnswer(s'.log, n, s'.status.question) &&
                AllAnswer(s'.log, n, s'.durable.question)
  {
    var (s1, ok) :=
      if s.op.disconnectStarted then (s, true)
      else Checkpoint(SetOp(s, s.op.(disconnectStarted := true)), mode, x.startWrite);
    assert AllAnswer(s1.log, n, s1.status.question) && AllAnswer(s1.log, n, s1.durable.question);
    if ok {
      var s2 := Issue(s1, Disconnect(s1.durable));
      assert Recordable(s2, mode, n);
      PollLoopRecords(s2, mode, x.ticks, x.disconnected, n);
    }
  }

  /** A call that begins with the disconnect on record, or a checkpoint that stores *op. */
  lemma EjectISORecords(s: Sys, mode: Mode, x: Script, n: nat)
    requires s.shared && s.op == s.status == s.durable && AllAnswer(s.log, n, s.op.question) && RecordedFirst(s.log, n)
    requires mode == PersistOp || s.op.disconnectStarted
    ensures var (s', _) := EjectISO(s, mode, x);
            RecordedFirst(s'.log, n) && AllAnswer(s'.log, n, s'.status.question) &&
                AllAnswer(s'.log, n, s'.durable.question)
  {
    hide DisconnectAndEject, AnswerLock;
    if SameVM(x.details, s.op.target) {
      if x.details.question.Some? && s.op.disconnectStarted {
        AnswerLockRecords(s, mode, x.details.question.value, x.lockWrite, x.lockAnswered, n);
        var (s1, ok) := AnswerLock(s, mode, x.details.question.value, x.lockWrite, x.lockAnswered);
        if ok {
          StartedAfterLock(s, mode, x);
          DisconnectAndEjectRecords(s1, mode, x, n);
        }
      } else {
        DisconnectAndEjectRecords(s, mode, x, n);
      }
    }
  }

  lemma StartedAfterLock(s: Sys, mode: Mode, x: Script)
    requires s.op.disconnectStarted && x.details.Details? && x.details.question.Some?
    ensures AnswerLock(s, mode, x.details.question.value, x.lockWrite, x.lockAnswered).0.op.disconnectStarted
  {}

  // ---------- The closure that stores agent.Status ----------

  /** After a first checkpoint agent.Status is a copy that later assignments to *op do not reach. */
  ghost predicate Detached(s: Sys) {
    !s.shared && s.status.question == None && s.durable.question == None
  }

  lemma {:induction false} DetachedNeverRecords(s: Sys, ticks: seq<Tick>, disconnected: bool, n: nat)
    requires Detached(s) && NeverRecordedFirst(s.log, n)
    ensures var (s', _) := PollLoop(s, PersistStatus, ticks, disconnected);
            Detached(s') && NeverRecordedFirst(s'.log, n)
    decreases |ticks|
  {
    if ticks != [] && ticks[0].Poll? {
      if ticks[0].question == None {
        DetachedNeverRecords(s, ticks[1..], disconnected, n);
      } else {
        var (s1, ok) := AnswerLock(s, PersistStatus, ticks[0].question.value, ticks[0].write, ticks[0].answered);
        assert Detached(s1) && NeverRecordedFirst(s1.log, n);
        if ok {
          DetachedNeverRecords(s1, ticks[1..], disconnected, n);
        }
      }
    }
  }

  /**
   * With the closure as written, the answers of one call were recorded first if and only if
   * disconnectStarted was on record when the call began; otherwise none of them was.
   */
  lemma AnswersRecordedIffStartedBefore(op: Op, log: seq<Event>, x: Script, i: nat)
    requires op.question.Some? ==> op.disconnectStarted
    requires var (s, _) := EjectISO(Sys(op, op, true, op, log), PersistStatus, x);
             |log| <= i < |s.log| && s.log[i].Answer?
    ensures var (s, _) := EjectISO(Sys(op, op, true, op, log), PersistStatus, x);
            s.log[i].durable.question == Some(s.log[i].id) <==> op.disconnectStarted
  {
    var s0 := Sys(op, op, true, op, log);
    if op.disconnectStarted {
      EjectISORecords(s0, PersistStatus, x, |log|);
    } else {
      UnstartedNeverRecords(s0, x);
    }
  }

  lemma UnstartedNeverRecords(s: Sys, x: Script)
    requires s.shared && s.op == s.status == s.durable && !s.op.disconnectStarted && s.op.question == None
    ensures NeverRecordedFirst(EjectISO(s, PersistStatus, x).0.log, |s.log|)
  {
    var (s1, ok) := Checkpoint(SetOp(s, s.op.(disconnectStarted := true)), PersistStatus, x.startWrite);
    if ok {
      DetachedNeverRecords(Issue(s1, Disconnect(s1.durable)), x.ticks, x.disconnected, |s.log|);
    }
  }

  /** A question answered without being on record is forgotten, and another one is answered. */
  lemma SecondQuestionAnswered(target: Target)
    requires target.uuid.Some? && target.iso.Some?
    ensures exists xs :: var log := Attempts(NewEjection(target), PersistStatus, xs).log;
              |log| == 4 && log[1].Answer? && log[3].Answer? && log[1].id != log[3].id
  {
    var before := Details(target.uuid, target.owner, [Device(target.device, target.iso)], None);
    var poll := q => Poll(Some(Question(Some(q), true)), Succeeds, true);
    var first := Script(before, Fails, false, Succeeds, [poll(1)], false, false, NotFound);
    var second := Script(before, Fails, false, Succeeds, [poll(2)], false, false, NotFound);
    var xs := [(first, Succeeds), (second, Succeeds)];
    var op := Op(target, true, None);
    var log1 := [Disconnect(op), Answer(1, op)];
    var op2 := op.(question := Some(2));
    TimedOutPoll(Op(target, false, None), [], first, 1);
    assert Reconcile(NewEjection(target), PersistStatus, first, Succeeds) == Life(Some(op), log1);
    TimedOutPoll(op, log1, second, 2);
    var l2 := Reconcile(Life(Some(op), log1), PersistStatus, second, Succeeds);
    assert l2.log == log1 + [Disconnect(op), Answer(2, op2)];
    assert xs[1..] == [(second, Succeeds)] && xs[1..][1..] == [];
    assert Attempts(l2, PersistStatus, []) == l2;
    assert Attempts(NewEjection(target), PersistStatus, xs) == l2;
  }

  /** One call in which a lock question is answered and the disconnect then times out. */
  lemma TimedOutPoll(op: Op, log: seq<Event>, x: Script, q: nat)
    requires op.target.uuid.Some? && op.target.iso.Some? && op.question == None
    requires x == Script(Details(op.target.uuid, op.target.owner, [Device(op.target.device, op.target.iso)], None),
                         Fails, false, Succeeds, [Poll(Some(Question(Some(q), true)), Succeeds, true)], false,
                             false, NotFound)
    ensures var (s, ok) := EjectISO(Sys(op, op, true, op, log), PersistStatus, x);
            var started := op.(disconnectStarted := true);
            var stored := if op.disconnectStarted then op.(question := Some(q)) else started;
            !ok && s.status == stored && s.durable == stored && s.log == log + [Disconnect(started), Answer(q, stored)]
  {
    var s0 := Sys(op, op, true, op, log);
    var started := op.(disconnectStarted := true);
    var s1 := Issue(if op.disconnectStarted then s0
        else Checkpoint(SetOp(s0, started), PersistStatus, Succeeds).0, Disconnect(started));
    assert FindDevice(x.details.devices, op.target.device) == Some(Device(op.target.device, op.target.iso));
    var (s2, ok) := AnswerLock(s1, PersistStatus, Question(Some(q), true), Succeeds, true);
    assert x.ticks[1..] == [];
    assert PollLoop(s2, PersistStatus, [], false) == (s2, false);
    assert PollLoop(s1, PersistStatus, x.ticks, false) == (s2, false);
    assert DisconnectAndEject(s0, PersistStatus, x) == (s2, false);
  }

  // ---------- Whole ejections ----------

  ghost predicate Extends(log: seq<Event>, log': seq<Event>) {
    |log| <= |log'| && log'[..|log|] == log
  }

  lemma {:induction false} PollLoopExtends(s: Sys, mode: Mode, ticks: seq<Tick>, disconnected: bool)
    ensures Extends(s.log, PollLoop(s, mode, ticks, disconnected).0.log)
    decreases |ticks|
  {
    if ticks != [] && ticks[0].Poll? {
      if ticks[0].question == None {
        PollLoopExtends(s, mode, ticks[1..], disconnected);
      } else {
        PollLoopExtends(AnswerLock(s, mode, ticks[0].question.value, ticks[0].write, ticks[0].answered).0, mode,
            ticks[1..], disconnected);
      }
    }
  }

  lemma DisconnectAndEjectExtends(s: Sys, mode: Mode, x: Script)
    ensures Extends(s.log, DisconnectAndEject(s, mode, x).0.log)
  {
    var s1 :=
      if s.op.disconnectStarted then s
      else Checkpoint(SetOp(s, s.op.(disconnectStarted := true)), mode, x.startWrite).0;
    PollLoopExtends(Issue(s1, Disconnect(s1.durable)), mode, x.ticks, x.disconnected);
  }

  lemma EjectISOExtends(s: Sys, mode: Mode, x: Script)
    ensures Extends(s.log, EjectISO(s, mode, x).0.log)
  {
    hide DisconnectAndEject;
    DisconnectAndEjectExtends(s, mode, x);
    if x.details.Details? && x.details.question.Some? {
      var s1 := AnswerLock(s, mode, x.details.question.value, x.lockWrite, x.lockAnswered).0;
      assert Extends(s.log, s1.log);
      DisconnectAndEjectExtends(s1, mode, x);
      ExtendsFurther(s.log, s1.log, DisconnectAndEject(s1, mode, x).0.log);
    }
  }

  lemma ExtendsFurther(a: seq<Event>, b: seq<Event>, c: seq<Event>)
    requires Extends(a, b) && Extends(b, c)
    ensures Extends(a, c) && forall i :: 0 <= i < |a| ==> c[i] == a[i]
  {
    forall i | 0 <= i < |a| ensures c[i] == a[i] {
      assert c[i] == c[..|b|][i] == b[i] == b[..|a|][i];
    }
  }

  lemma ReconcileExtends(l: Life, mode: Mode, x: Script, write: WriteOutcome)
    ensures Extends(l.log, Reconcile(l, mode, x, write).log)
  {
    hide EjectISO;
    if l.record.Some? {
      EjectISOExtends(Sys(l.record.value, l.record.value, true, l.record.value, l.log), mode, x);
    }
  }

  lemma {:induction false} AttemptsExtend(l: Life, mode: Mode, xs: seq<(Script, WriteOutcome)>)
    ensures Extends(l.log, Attempts(l, mode, xs).log)
    decreases |xs|
  {
    hide Reconcile, Extends;
    if xs == [] {
      assert Extends(l.log, l.log) by { SameLog(l.log); }
    } else {
      var l' := Reconcile(l, mode, xs[0].0, xs[0].1);
      ReconcileExtends(l, mode, xs[0].0, xs[0].1);
      AttemptsExtend(l', mode, xs[1..]);
      ExtendsFurther(l.log, l'.log, Attempts(l', mode, xs[1..]).log);
    }
  }

  lemma SameLog(log: seq<Event>)
    ensures Extends(log, log)
  {}

  /** The first question that the polls meet is the CD lock, and noting it succeeds. */
  predicate PollsAnswer(ticks: seq<Tick>)
    decreases |ticks|
  {
    && ticks != [] && ticks[0].Poll?
    && (if ticks[0].question == None then PollsAnswer(ticks[1..])
        else ticks[0].question.value.lock && ticks[0].question.value.id.Some? && ticks[0].write == Succeeds)
  }

  /** A call that finds the disconnect unrecorded starts it and then answers a question. */
  predicate StartAnswers(op: Op, x: Script) {
    && op.target.uuid.Some? && op.target.iso.Some?
    && SameVM(x.details, op.target) && x.details.question == None
    && FindDevice(x.details.devices, op.target.device) == Some(Device(op.target.device, op.target.iso))
    && x.startWrite == Succeeds && PollsAnswer(x.ticks)
  }

  lemma {:induction false} FoundDeviceHasKey(devices: seq<Device>, key: nat)
    ensures var found := FindDevice(devices, key); found.Some? ==> found.value.key == key
  {
    if devices != [] && devices[0].key != key {
      FoundDeviceHasKey(devices[1..], key);
    }
  }

  ghost predicate SomeAnswer(log: seq<Event>, n: nat) {
    exists i :: n <= i < |log| && log[i].Answer?
  }

  lemma {:induction false} PollLoopAnswersIff(s: Sys, ticks: seq<Tick>, disconnected: bool)
    requires s.op.question == None
    ensures var log := PollLoop(s, PersistStatus, ticks, disconnected).0.log; SomeAnswer(log, |s.log|) <==>
              PollsAnswer(ticks)
    decreases |ticks|
  {
    if ticks != [] && ticks[0].Poll? {
      if ticks[0].question == None {
        PollLoopAnswersIff(s, ticks[1..], disconnected);
      } else {
        var (s1, ok) := AnswerLock(s, PersistStatus, ticks[0].question.value, ticks[0].write, ticks[0].answered);
        if PollsAnswer(ticks) {
          PollLoopExtends(s1, PersistStatus, ticks[1..], disconnected);
          var log := PollLoop(s, PersistStatus, ticks, disconnected).0.log;
          assert s1.log[|s.log|].Answer? && log[..|s1.log|][|s.log|] == log[|s.log|];
        }
      }
    }
  }

  /** Whether the call that starts the disconnect answers a question can be read off its script. */
  lemma StartingCallAnswersIff(op: Op, log: seq<Event>, x: Script)
    requires !op.disconnectStarted && op.question == None
    ensures var s := EjectISO(Sys(op, op, true, op, log), PersistStatus, x).0;
            SomeAnswer(s.log, |log|) <==> StartAnswers(op, x)
  {
    var s0 := Sys(op, op, true, op, log);
    var (s1, ok) := Checkpoint(SetOp(s0, op.(disconnectStarted := true)), PersistStatus, x.startWrite);
    if x.details.Details? {
      FoundDeviceHasKey(x.details.devices, op.target.device);
    }
    if ok {
      var s2 := Issue(s1, Disconnect(s1.durable));
      PollLoopAnswersIff(s2, x.ticks, x.disconnected);
      PollLoopExtends(s2, PersistStatus, x.ticks, x.disconnected);
      EjectAddsNoAnswer(s2, s0, x);
    }
  }

  lemma EjectAddsNoAnswer(s2: Sys, s0: Sys, x: Script)
    requires Extends(s2.log, PollLoop(s2, PersistStatus, x.ticks, x.disconnected).0.log)
    requires s2.log == s0.log + [Disconnect(s2.durable)]
    ensures var s3 := PollLoop(s2, PersistStatus, x.ticks, x.disconnected).0;
            && (SomeAnswer(s3.log, |s2.log|) <==> SomeAnswer(s3.log, |s0.log|))
            && (SomeAnswer(s3.log, |s0.log|) <==> SomeAnswer(Issue(s3, Eject(s3.durable)).log, |s0.log|))
  {
    var s3 := PollLoop(s2, PersistStatus, x.ticks, x.disconnected).0;
    var log := Issue(s3, Eject(s3.durable)).log;
    assert s3.log[..|s2.log|][|s0.log|] == s3.log[|s0.log|];
    assert forall i :: 0 <= i < |s3.log| ==> log[i] == s3.log[i];
    if SomeAnswer(s3.log, |s0.log|) {
      var i :| |s0.log| <= i < |s3.log| && s3.log[i].Answer?;
      assert i != |s0.log| && log[i].Answer?;
    }
  }

  /** No call that starts the disconnect answers a question; read off records and scripts. */
  ghost predicate StartsQuietly(l: Life, xs: seq<(Script, WriteOutcome)>)
    decreases |xs|
  {
    xs != [] ==>
      && (l.record.Some? && !l.record.value.disconnectStarted ==> !StartAnswers(l.record.value, xs[0].0))
      && StartsQuietly(Reconcile(l, PersistStatus, xs[0].0, xs[0].1), xs[1..])
  }

  ghost predicate OneQuestion(l: Life) {
    && RecordedFirst(l.log, 0)
    && (l.record.Some? ==> AllAnswer(l.log, 0, l.record.value.question))
    && (forall i, j :: 0 <= i < |l.log| && 0 <= j < |l.log| && l.log[i].Answer? && l.log[j].Answer? ==>
          l.log[i].id == l.log[j].id)
  }

  /** Before the disconnect is on record nothing was answered; a call without answers changes nothing about that. */
  lemma SilentCallKeepsOneQuestion(l: Life, x: Script, write: WriteOutcome)
    requires OneQuestion(l) && l.record.Some? && !l.record.value.disconnectStarted && l.record.value.question == None
    requires !StartAnswers(l.record.value, x)
    ensures OneQuestion(Reconcile(l, PersistStatus, x, write))
  {
    var op := l.record.value;
    StartingCallAnswersIff(op, l.log, x);
    EjectISOExtends(Sys(op, op, true, op, l.log), PersistStatus, x);
    hide EjectISO, StartAnswers;
    var l' := Reconcile(l, PersistStatus, x, write);
    forall i | 0 <= i < |l'.log| ensures !l'.log[i].Answer? {
      if i < |l.log| {
        assert l'.log[..|l.log|][i] == l.log[i];
      }
    }
  }

  /**
   * One ejection answers at most one question ID, recorded first, over any retries and crashes:
   * for a checkpoint that stores *op always, for the closure as written if no call that starts
   * the disconnect answers a question.
   */
  lemma {:induction false} OneQuestionPerEjection(l: Life, mode: Mode, xs: seq<(Script, WriteOutcome)>)
    requires LifeOK(l) && OneQuestion(l)
    requires mode == PersistOp || StartsQuietly(l, xs)
    ensures OneQuestion(Attempts(l, mode, xs))
    decreases |xs|
  {
    hide EjectISO, StartAnswers;
    if xs != [] {
      var l' := Reconcile(l, mode, xs[0].0, xs[0].1);
      if l.record.Some? {
        var op := l.record.value;
        if mode == PersistOp || op.disconnectStarted {
          EjectISORecords(Sys(op, op, true, op, l.log), mode, xs[0].0, 0);
        } else {
          SilentCallKeepsOneQuestion(l, xs[0].0, xs[0].1);
        }
      }
      ReconcileKeepsLifeOK(l, mode, xs[0].0, xs[0].1);
      OneQuestionPerEjection(l', mode, xs[1..]);
    }
  }

  lemma ReconcileKeepsLifeOK(l: Life, mode: Mode, x: Script, write: WriteOutcome)
    requires LifeOK(l)
    ensures LifeOK(Reconcile(l, mode, x, write))
  {
    hide EjectISO;
    if l.record.Some? {
      EjectISOKeeps(Sys(l.record.value, l.record.value, true, l.record.value, l.log), mode, x);
    }
  }

  lemma UnrecordedAnswerStays(l: Life, x: Script, write: WriteOutcome, xs: seq<(Script, WriteOutcome)>)
    requires l.record.Some? && !l.record.value.disconnectStarted && l.record.value.question == None
    requires StartAnswers(l.record.value, x)
    ensures !RecordedFirst(Attempts(Reconcile(l, PersistStatus, x, write), PersistStatus, xs).log, 0)
  {
    var op := l.record.value;
    var l' := Reconcile(l, PersistStatus, x, write);
    StartingCallAnswersIff(op, l.log, x);
    UnstartedNeverRecords(Sys(op, op, true, op, l.log), x);
    hide EjectISO, StartAnswers;
    AttemptsExtend(l', PersistStatus, xs);
    var log := Attempts(l', PersistStatus, xs).log;
    var i :| |l.log| <= i < |l'.log| && l'.log[i].Answer?;
    assert log[..|l'.log|][i] == log[i];
  }

  /** With the closure as written, all answers were recorded first if and only if every start was quiet. */
  lemma {:induction false} RecordedFirstIffStartsQuietly(l: Life, xs: seq<(Script, WriteOutcome)>)
    requires LifeOK(l) && OneQuestion(l)
    ensures RecordedFirst(Attempts(l, PersistStatus, xs).log, 0) <==> StartsQuietly(l, xs)
    decreases |xs|
  {
    if StartsQuietly(l, xs) {
      OneQuestionPerEjection(l, PersistStatus, xs);
    } else {
      NoisyStartIsUnrecorded(l, xs);
    }
  }

  lemma {:induction false} NoisyStartIsUnrecorded(l: Life, xs: seq<(Script, WriteOutcome)>)
    requires LifeOK(l) && !StartsQuietly(l, xs)
    ensures !RecordedFirst(Attempts(l, PersistStatus, xs).log, 0)
    decreases |xs|
  {
    hide Reconcile, StartAnswers, RecordedFirst;
    if l.record.Some? && !l.record.value.disconnectStarted && StartAnswers(l.record.value, xs[0].0) {
      UnrecordedAnswerStays(l, xs[0].0, xs[0].1, xs[1..]);
    } else {
      ReconcileKeepsLifeOK(l, PersistStatus, xs[0].0, xs[0].1);
      NoisyStartIsUnrecorded(Reconcile(l, PersistStatus, xs[0].0, xs[0].1), xs[1..]);
    }
  }

  // ---------- At most two questions ----------

  ghost predicate AnswersWithin(log: seq<Event>, a: Option<nat>, b: Option<nat>) {
    forall i :: 0 <= i < |log| && log[i].Answer? ==> Some(log[i].id) == a || Some(log[i].id) == b
  }

  /** Nothing is answered before the start, one question by the starting call, one more after it. */
  ghost predicate TwoQuestions(l: Life, a: Option<nat>, b: Option<nat>) {
    && AnswersWithin(l.log, a, b)
    && (l.record.Some? ==>
          var op := l.record.value;
          && (!op.disconnectStarted ==> a == None && b == None)
          && (op.disconnectStarted ==> b == None || op.question == b))
  }

  lemma {:induction false} PollLoopAnswersOwn(s: Sys, mode: Mode, ticks: seq<Tick>, disconnected: bool, n: nat)
    requires AllAnswer(s.log, n, s.op.question)
    ensures var s' := PollLoop(s, mode, ticks, disconnected).0; AllAnswer(s'.log, n, s'.op.question)
    decreases |ticks|
  {
    if ticks != [] && ticks[0].Poll? {
      if ticks[0].question == None {
        PollLoopAnswersOwn(s, mode, ticks[1..], disconnected, n);
      } else {
        var s1 := AnswerLock(s, mode, ticks[0].question.value, ticks[0].write, ticks[0].answered).0;
        assert AllAnswer(s1.log, n, s1.op.question);
        PollLoopAnswersOwn(s1, mode, ticks[1..], disconnected, n);
      }
    }
  }

  /** The starting call answers one question at most, and leaves the disconnect on record if it does. */
  lemma StartingCall(s: Sys, x: Script) returns (a: Option<nat>)
    requires s.shared && s.op == s.status == s.durable && !s.op.disconnectStarted && s.op.question == None
    ensures var s' := EjectISO(s, PersistStatus, x).0;
            && AllAnswer(s'.log, |s.log|, a)
            && (a.Some? ==> s'.status.disconnectStarted && s'.durable.disconnectStarted)
            && s'.durable.question == None && s'.status.question == None
  {
    a := None;
    var (s1, ok) := Checkpoint(SetOp(s, s.op.(disconnectStarted := true)), PersistStatus, x.startWrite);
    if ok {
      var s2 := Issue(s1, Disconnect(s1.durable));
      var s3 := PollLoop(s2, PersistStatus, x.ticks, x.disconnected).0;
      PollLoopAnswersOwn(s2, PersistStatus, x.ticks, x.disconnected, |s.log|);
      DetachedNeverRecords(s2, x.ticks, x.disconnected, |s.log|);
      DetachedStaysStarted(s2, x.ticks, x.disconnected);
      if SomeAnswer(EjectISO(s, PersistStatus, x).0.log, |s.log|) {
        a := s3.op.question;
      }
    }
  }

  lemma {:induction false} DetachedStaysStarted(s: Sys, ticks: seq<Tick>, disconnected: bool)
    requires Detached(s) && s.status.disconnectStarted && s.durable.disconnectStarted
    ensures var s' := PollLoop(s, PersistStatus, ticks, disconnected).0;
            s'.status.disconnectStarted && s'.durable.disconnectStarted
    decreases |ticks|
  {
    if ticks != [] && ticks[0].Poll? {
      if ticks[0].question == None {
        DetachedStaysStarted(s, ticks[1..], disconnected);
      } else {
        var s1 := AnswerLock(s, PersistStatus, ticks[0].question.value, ticks[0].write, ticks[0].answered).0;
        assert Detached(s1) && s1.status.disconnectStarted && s1.durable.disconnectStarted;
        DetachedStaysStarted(s1, ticks[1..], disconnected);
      }
    }
  }

  lemma {:induction false} NotedQuestionStays(s: Sys, ticks: seq<Tick>, disconnected: bool)
    requires s.op.question.Some?
    ensures PollLoop(s, PersistStatus, ticks, disconnected).0.(log := s.log) == s
    decreases |ticks|
  {
    if ticks != [] && ticks[0].Poll? {
      if ticks[0].question == None {
        NotedQuestionStays(s, ticks[1..], disconnected);
      } else {
        var s1 := AnswerLock(s, PersistStatus, ticks[0].question.value, ticks[0].write, ticks[0].answered).0;
        assert s1.(log := s.log) == s;
        NotedQuestionStays(s1, ticks[1..], disconnected);
      }
    }
  }

  lemma StartedCallKeepsQuestion(s: Sys, x: Script)
    requires s.op.disconnectStarted && s.op.question.Some?
    ensures EjectISO(s, PersistStatus, x).0.(log := s.log) == s
  {
    if x.details.Details? {
      var s1 :=
        if x.details.question == None then s
        else AnswerLock(s, PersistStatus, x.details.question.value, x.lockWrite, x.lockAnswered).0;
      assert s1.(log := s.log) == s;
      NotedQuestionStays(Issue(s1, Disconnect(s1.durable)), x.ticks, x.disconnected);
    }
  }

  lemma {:induction false} StartStays(s: Sys, mode: Mode, x: Script)
    requires Consistent(s) && s.shared && s.durable == s.op && s.op.disconnectStarted
    ensures var s' := EjectISO(s, mode, x).0; Started(s')
  {
    if x.details.Details? {
      var s1 := s;
      if x.details.question.Some? {
        AnswerLockKeeps(s, mode, x.details.question.value, x.lockWrite, x.lockAnswered);
        s1 := AnswerLock(s, mode, x.details.question.value, x.lockWrite, x.lockAnswered).0;
      }
      PollLoopKeeps(Issue(s1, Disconnect(s1.durable)), mode, x.ticks, x.disconnected);
    }
  }

  /** One reconcile after the start: at most one further question, which is then on record. */
  lemma StartedReconcile(l: Life, x: Script, write: WriteOutcome, a: Option<nat>, b: Option<nat>)
    returns (b': Option<nat>)
    requires LifeOK(l) && TwoQuestions(l, a, b) && l.record.Some? && l.record.value.disconnectStarted
    ensures TwoQuestions(Reconcile(l, PersistStatus, x, write), a, b')
  {
    var op := l.record.value;
    var s := Sys(op, op, true, op, l.log);
    EjectISORecords(s, PersistStatus, x, |l.log|);
    EjectISOExtends(s, PersistStatus, x);
    StartStays(s, PersistStatus, x);
    if op.question.Some? {
      StartedCallKeepsQuestion(s, x);
    }
    hide EjectISO;
    var s' := EjectISO(s, PersistStatus, x).0;
    b' := if SomeAnswer(s'.log, |l.log|) then s'.status.question else b;
    forall i | 0 <= i < |s'.log| && s'.log[i].Answer?
      ensures Some(s'.log[i].id) == a || Some(s'.log[i].id) == b'
    {
      if i < |l.log| {
        assert s'.log[..|l.log|][i] == l.log[i];
      }
    }
  }

  /** One reconcile before the start. */
  lemma StartingReconcile(l: Life, x: Script, write: WriteOutcome) returns (a: Option<nat>)
    requires LifeOK(l) && TwoQuestions(l, None, None) && l.record.Some? && !l.record.value.disconnectStarted
    ensures TwoQuestions(Reconcile(l, PersistStatus, x, write), a, None)
  {
    var op := l.record.value;
    var s := Sys(op, op, true, op, l.log);
    a := StartingCall(s, x);
    EjectISOExtends(s, PersistStatus, x);
    hide EjectISO;
    var s' := EjectISO(s, PersistStatus, x).0;
    forall i | 0 <= i < |l.log| ensures s'.log[i] == l.log[i] {
      assert s'.log[..|l.log|][i] == l.log[i];
    }
  }

  lemma {:induction false} TwoQuestionsOverAttempts(l: Life, xs: seq<(Script, WriteOutcome)>, a: Option<nat>,
      b: Option<nat>)
    returns (a': Option<nat>, b': Option<nat>)
    requires LifeOK(l) && TwoQuestions(l, a, b)
    ensures TwoQuestions(Attempts(l, PersistStatus, xs), a', b')
    decreases |xs|
  {
    hide LifeOK, EjectISO;
    a', b' := a, b;
    if xs != [] && l.record.Some? {
      var l' := Reconcile(l, PersistStatus, xs[0].0, xs[0].1);
      ReconcileKeepsLifeOK(l, PersistStatus, xs[0].0, xs[0].1);
      if l.record.value.disconnectStarted {
        b' := StartedReconcile(l, xs[0].0, xs[0].1, a, b);
      } else {
        a' := StartingReconcile(l, xs[0].0, xs[0].1);
      }
      a', b' := TwoQuestionsOverAttempts(l', xs[1..], a', b');
    } else if xs != [] {
      a', b' := TwoQuestionsOverAttempts(l, xs[1..], a, b);
    }
  }

  /** The closure as written never lets one ejection answer more than two question IDs. */
  lemma AtMostTwoQuestions(target: Target, xs: seq<(Script, WriteOutcome)>) returns (a: Option<nat>, b: Option<nat>)
    ensures AnswersWithin(Attempts(NewEjection(target), PersistStatus, xs).log, a, b)
  {
    a, b := TwoQuestionsOverAttempts(NewEjection(target), xs, None, None);
  }

  // ---------- Clearing the record ----------

  /** The environment has shown that the recorded device no longer backs the recorded ISO. */
  ghost predicate Released(x: Script, target: Target) {
    || x.details == NotFound
    || (SameVM(x.details, target) && !Backs(x.details.devices, target))
    || (x.ejected && x.observed.Details? && !Backs(x.observed.devices, target))
  }

  ghost predicate UniqueKeys(devices: seq<Device>) {
    forall i, j :: 0 <= i < j < |devices| ==> devices[i].key != devices[j].key
  }

  lemma {:induction false} FoundDeviceIsTheOne(devices: seq<Device>, target: Target)
    requires UniqueKeys(devices) && target.iso.Some?
    ensures var found := FindDevice(devices, target.device);
            Backs(devices, target) <==> found.Some? && found.value.file == target.iso
  {
    if devices != [] {
      FoundDeviceIsTheOne(devices[1..], target);
      if devices[0].key == target.device {
        if Backs(devices, target) {
          var i :| 0 <= i < |devices| && devices[i] == Device(target.device, target.iso);
          assert i == 0;
        }
        assert devices[0].file == target.iso ==> devices[0] == Device(target.device, target.iso);
      } else {
        if Backs(devices, target) {
          var i :| 0 <= i < |devices| && devices[i] == Device(target.device, target.iso);
          assert devices[1..][i - 1] == devices[i];
        }
        if Backs(devices[1..], target) {
          var i :| 0 <= i < |devices[1..]| && devices[1..][i] == Device(target.device, target.iso);
          assert devices[i + 1] == Device(target.device, target.iso);
        }
      }
    }
  }

  lemma SuccessMeansReleased(s: Sys, mode: Mode, x: Script)
    requires Consistent(s) && s.shared && s.durable == s.op
    requires EjectISO(s, mode, x).1 && (x.details.Details? ==> UniqueKeys(x.details.devices))
    ensures Released(x, s.op.target)
  {
    hide DisconnectAndEject, AnswerLock;
    if x.details.Details? {
      FoundDeviceIsTheOne(x.details.devices, s.op.target);
      if Backs(x.details.devices, s.op.target) {
        if x.details.question == None {
          EjectMeansReleased(s, mode, x);
        } else {
          AnswerLockKeeps(s, mode, x.details.question.value, x.lockWrite, x.lockAnswered);
          EjectMeansReleased(AnswerLock(s, mode, x.details.question.value, x.lockWrite, x.lockAnswered).0, mode, x);
        }
      }
    }
  }

  lemma EjectMeansReleased(s: Sys, mode: Mode, x: Script)
    requires Consistent(s) && (s.op.disconnectStarted ==> Started(s)) && DisconnectAndEject(s, mode, x).1
    requires mode == PersistStatus ==> s.shared || s.op.disconnectStarted
    ensures x.ejected && x.observed.Details? && !Backs(x.observed.devices, s.op.target)
  {
    DisconnectAndEjectKeeps(s, mode, x);
  }

  /** A record that was cleared had its VM gone or its device free of the ISO, at one of the calls. */
  lemma {:induction false} ClearedMeansReleased(l: Life, mode: Mode, xs: seq<(Script, WriteOutcome)>) returns (k: nat)
    requires LifeOK(l) && l.record.Some? && Attempts(l, mode, xs).record == None
    requires forall i :: 0 <= i < |xs| && xs[i].0.details.Details? ==> UniqueKeys(xs[i].0.details.devices)
    ensures k < |xs| && Released(xs[k].0, l.record.value.target)
    decreases |xs|
  {
    var op := l.record.value;
    var s := Sys(op, op, true, op, l.log);
    EjectISOKeeps(s, mode, xs[0].0);
    var l' := Reconcile(l, mode, xs[0].0, xs[0].1);
    if l'.record == None {
      SuccessMeansReleased(s, mode, xs[0].0);
      k := 0;
    } else {
      var n := ClearedMeansReleased(l', mode, xs[1..]);
      k := n + 1;
    }
  }

  // ---------- Which commands are sent ----------

  /** The VM posed the CD-lock question with this ID during the call. */
  ghost predicate LockPosed(x: Script, id: nat) {
    || (x.details.Details? && x.details.question == Some(Question(Some(id), true)))
    || LockPolled(x.ticks, id)
  }

  ghost predicate LockPolled(ticks: seq<Tick>, id: nat) {
    exists i :: 0 <= i < |ticks| && ticks[i].Poll? && ticks[i].question == Some(Question(Some(id), true))
  }

  lemma AnswerLockAdds(s: Sys, mode: Mode, q: Question, write: WriteOutcome, answered: bool)
    ensures var s' := AnswerLock(s, mode, q, write, answered).0;
            || s'.log == s.log
            || (q.lock && q.id.Some? && s'.log == s.log + [Answer(q.id.value, s'.durable)])
  {}

  /** From position n on there are only answers to lock questions of these polls. */
  ghost predicate OnlyLocks(log: seq<Event>, n: nat, ticks: seq<Tick>) {
    forall i :: n <= i < |log| ==> log[i].Answer? && LockPolled(ticks, log[i].id)
  }

  lemma {:induction false} PollsAnswerOnlyLocks(s: Sys, mode: Mode, ticks: seq<Tick>, disconnected: bool)
    ensures var (s', _) := PollLoop(s, mode, ticks, disconnected);
            Extends(s.log, s'.log) && OnlyLocks(s'.log, |s.log|, ticks)
    decreases |ticks|
  {
    PollLoopExtends(s, mode, ticks, disconnected);
    if ticks != [] && ticks[0].Poll? {
      if ticks[0].question == None {
        PollsAnswerOnlyLocks(s, mode, ticks[1..], disconnected);
        LaterPolls(ticks);
      } else {
        var (s1, ok) := AnswerLock(s, mode, ticks[0].question.value, ticks[0].write, ticks[0].answered);
        AnswerLockAdds(s, mode, ticks[0].question.value, ticks[0].write, ticks[0].answered);
        hide AnswerLock;
        if s1.log != s.log {
          assert LockPolled(ticks, s1.log[|s.log|].id);
        }
        if ok {
          PollsAnswerOnlyLocks(s1, mode, ticks[1..], disconnected);
          LaterPolls(ticks);
          hide LockPolled;
          var s' := PollLoop(s1, mode, ticks[1..], disconnected).0;
          assert forall i :: 0 <= i < |s1.log| ==> s'.log[i] == s'.log[..|s1.log|][i];
        }
      }
    }
  }

  lemma LaterPolls(ticks: seq<Tick>)
    requires ticks != []
    ensures forall id :: LockPolled(ticks[1..], id) ==> LockPolled(ticks, id)
  {}

  /** Answers go to lock questions of this call only, and media is ejected only after a disconnect. */
  ghost predicate Commanded(log: seq<Event>, n: nat, x: Script) {
    && (forall i :: n <= i < |log| && log[i].Answer? ==> LockPosed(x, log[i].id))
    && (forall i :: n <= i < |log| && log[i].Eject? ==> exists j :: n <= j < i && log[j].Disconnect?)
  }

  lemma DisconnectAndEjectCommands(s: Sys, mode: Mode, x: Script, n: nat)
    requires n <= |s.log| && Commanded(s.log, n, x)
    ensures Commanded(DisconnectAndEject(s, mode, x).0.log, n, x)
  {
    var (s1, ok) :=
      if s.op.disconnectStarted then (s, true)
      else Checkpoint(SetOp(s, s.op.(disconnectStarted := true)), mode, x.startWrite);
    if ok {
      var s2 := Issue(s1, Disconnect(s1.durable));
      assert s2.log[|s.log|].Disconnect?;
      PollsAnswerOnlyLocks(s2, mode, x.ticks, x.disconnected);
      var s3 := PollLoop(s2, mode, x.ticks, x.disconnected).0;
      assert forall i :: 0 <= i < |s2.log| ==> s3.log[i] == s3.log[..|s2.log|][i];
      var log := DisconnectAndEject(s, mode, x).0.log;
      assert log[|s.log|].Disconnect?;
      forall i | n <= i < |log| && log[i].Eject? ensures exists j :: n <= j < i && log[j].Disconnect? {
        if i < |s.log| {
          var j :| n <= j < i && s.log[j].Disconnect?;
          assert log[j].Disconnect?;
        }
      }
    }
  }

  /** What one call sends to vSphere, whatever the environment answers. */
  lemma EjectISOCommands(s: Sys, mode: Mode, x: Script)
    ensures Commanded(EjectISO(s, mode, x).0.log, |s.log|, x)
  {
    hide DisconnectAndEject;
    if x.details.Details? {
      DisconnectAndEjectCommands(s, mode, x, |s.log|);
      if x.details.question.Some? {
        var s1 := AnswerLock(s, mode, x.details.question.value, x.lockWrite, x.lockAnswered).0;
        assert Commanded(s1.log, |s.log|, x);
        DisconnectAndEjectCommands(s1, mode, x, |s.log|);
      }
    }
  }

  // ---------- When a call succeeds, and exactly which commands it sends ----------

  ghost predicate Asks(ticks: seq<Tick>, i: int) {
    0 <= i < |ticks| && ticks[i].Poll? && ticks[i].question.Some?
  }

  /** The question is the CD lock, it is the one on record, it can be recorded if it is the first, and is answered. */
  ghost predicate Answerable(noted: Option<nat>, q: Question, write: WriteOutcome, answered: bool) {
    q.lock && q.id.Some? && answered && (if noted.Some? then q.id == noted else write == Succeeds)
  }

  /** Every poll can be read, and all questions are one answerable CD lock, noted or recorded at its first poll. */
  ghost predicate Smooth(noted: Option<nat>, ticks: seq<Tick>) {
    && (forall i :: 0 <= i < |ticks| ==> ticks[i].Poll?)
    && (forall i :: Asks(ticks, i) ==>
          ticks[i].question.value.lock && ticks[i].question.value.id.Some? && ticks[i].answered)
    && (forall i, j :: Asks(ticks, i) && Asks(ticks, j) ==>
          ticks[i].question.value.id == ticks[j].question.value.id)
    && (forall i :: Asks(ticks, i) ==>
          if noted.Some? then ticks[i].question.value.id == noted
          else (forall j :: Asks(ticks, j) ==> i <= j) ==> ticks[i].write == Succeeds)
  }

  lemma SmoothWithoutQuestion(noted: Option<nat>, ticks: seq<Tick>)
    requires ticks != [] && ticks[0].Poll? && ticks[0].question == None
    ensures Smooth(noted, ticks) <==> Smooth(noted, ticks[1..])
  {
    var rest := ticks[1..];
    assert forall i :: 0 <= i < |rest| ==> rest[i] == ticks[i + 1];
    assert forall i :: Asks(ticks, i) ==> Asks(rest, i - 1);
    assert forall i :: Asks(rest, i) ==> Asks(ticks, i + 1);
    if Smooth(noted, rest) {
      forall i | Asks(ticks, i)
        ensures if noted.Some? then ticks[i].question.value.id == noted
                else (forall j :: Asks(ticks, j) ==> i <= j) ==> ticks[i].write == Succeeds
      {
        assert Asks(rest, i - 1);
      }
    }
    if Smooth(noted, ticks) {
      forall i | Asks(rest, i)
        ensures if noted.Some? then rest[i].question.value.id == noted
                else (forall j :: Asks(rest, j) ==> i <= j) ==> rest[i].write == Succeeds
      {
        assert Asks(ticks, i + 1);
      }
    }
  }

  lemma SmoothWithQuestion(noted: Option<nat>, ticks: seq<Tick>)
    requires ticks != [] && ticks[0].Poll? && ticks[0].question.Some?
    ensures Smooth(noted, ticks) <==>
              && Answerable(noted, ticks[0].question.value, ticks[0].write, ticks[0].answered)
              && Smooth(ticks[0].question.value.id, ticks[1..])
  {
    var rest := ticks[1..];
    assert Asks(ticks, 0) && forall i :: 0 <= i < |rest| ==> rest[i] == ticks[i + 1];
    assert forall i :: Asks(ticks, i) && i > 0 ==> Asks(rest, i - 1);
    assert forall i :: Asks(rest, i) ==> Asks(ticks, i + 1);
    if Smooth(noted, ticks) {
      forall i | Asks(rest, i) ensures rest[i].question.value.id == ticks[0].question.value.id {
        assert Asks(ticks, i + 1);
      }
    }
    if Answerable(noted, ticks[0].question.value, ticks[0].write, ticks[0].answered) &&
       Smooth(ticks[0].question.value.id, rest) {
      forall i | Asks(ticks, i)
        ensures ticks[i].question.value.id == ticks[0].question.value.id
        ensures ticks[i].question.value.lock && ticks[i].answered
      {
        if i > 0 {
          assert Asks(rest, i - 1);
        }
      }
    }
  }

  lemma AnswerLockSucceedsIff(s: Sys, mode: Mode, q: Question, write: WriteOutcome, answered: bool)
    ensures var (s', ok) := AnswerLock(s, mode, q, write, answered);
            && (ok <==> Answerable(s.op.question, q, write, answered))
            && (ok ==> s'.op.question == q.id && s'.log == s.log + [Answer(q.id.value, s'.durable)])
            && s'.op.target == s.op.target && s'.op.disconnectStarted == s.op.disconnectStarted
  {}

  /** The IDs of the questions met by the polls, in order. */
  function Posed(ticks: seq<Tick>): seq<nat> {
    if ticks == [] then []
    else if ticks[0].Poll? && ticks[0].question.Some? && ticks[0].question.value.id.Some? then
      [ticks[0].question.value.id.value] + Posed(ticks[1..])
    else Posed(ticks[1..])
  }

  /** From position n on the log holds exactly one answer for each of these IDs, in order. */
  ghost predicate Answered(log: seq<Event>, n: nat, ids: seq<nat>) {
    |log| == n + |ids| && forall i :: n <= i < |log| ==> log[i].Answer? && log[i].id == ids[i - n]
  }

  /** The polls succeed if and only if they go smoothly, and then every question was answered once. */
  lemma {:induction false} PollLoopSucceedsIff(s: Sys, mode: Mode, ticks: seq<Tick>, disconnected: bool)
    ensures var (s', ok) := PollLoop(s, mode, ticks, disconnected);
            && (ok <==> disconnected && Smooth(s.op.question, ticks))
            && (ok ==> Extends(s.log, s'.log) && Answered(s'.log, |s.log|, Posed(ticks)))
            && s'.op.target == s.op.target
    decreases |ticks|
  {
    if ticks != [] && ticks[0].Poll? {
      if ticks[0].question == None {
        SmoothWithoutQuestion(s.op.question, ticks);
        PollLoopSucceedsIff(s, mode, ticks[1..], disconnected);
      } else {
        SmoothWithQuestion(s.op.question, ticks);
        AnswerLockSucceedsIff(s, mode, ticks[0].question.value, ticks[0].write, ticks[0].answered);
        var (s1, ok) := AnswerLock(s, mode, ticks[0].question.value, ticks[0].write, ticks[0].answered);
        if ok {
          hide AnswerLock, Smooth, Answerable;
          PollLoopSucceedsIff(s1, mode, ticks[1..], disconnected);
          var (s', ok') := PollLoop(s1, mode, ticks[1..], disconnected);
          if ok' {
            ExtendsFurther(s.log, s1.log, s'.log);
            AnsweredBefore(s.log, s1.log, s'.log, Posed(ticks[1..]), ticks[0].question.value.id.value);
          }
        }
      }
    }
  }

  lemma AnsweredBefore(a: seq<Event>, b: seq<Event>, c: seq<Event>, ids: seq<nat>, id: nat)
    requires |b| == |a| + 1 && b[|a|].Answer? && b[|a|].id == id && Extends(b, c) && Answered(c, |b|, ids)
    ensures Answered(c, |a|, [id] + ids)
  {
    assert c[|a|] == c[..|b|][|a|] == b[|a|];
    forall i | |b| <= i < |c| ensures c[i].Answer? && c[i].id == ([id] + ids)[i - |a|] {
      assert ([id] + ids)[i - |a|] == ids[i - |b|];
    }
  }

  /** The VM that was read is the recorded one, and its owner too where one is recorded. */
  ghost predicate OnTarget(op: Op, x: Script) {
    x.details.Details? && x.details.uuid == op.target.uuid &&
        (op.target.owner == None || x.details.owner == op.target.owner)
  }

  /** The first device with the recorded key holds this file. */
  ghost predicate DeviceHolds(devices: seq<Device>, key: nat, file: Option<nat>) {
    exists i :: 0 <= i < |devices| && devices[i] == Device(key, file) && forall j :: 0 <= j < i ==>
        devices[j].key != key
  }

  lemma {:induction false} FindDeviceMeans(devices: seq<Device>, key: nat, file: Option<nat>)
    ensures DeviceHolds(devices, key, file) <==> FindDevice(devices, key) == Some(Device(key, file))
    ensures FindDevice(devices, key) == None <==> forall i :: 0 <= i < |devices| ==> devices[i].key != key
    ensures FindDevice(devices, key).Some? ==> FindDevice(devices, key).value.key == key
  {
    if devices != [] {
      var rest := devices[1..];
      FindDeviceMeans(rest, key, file);
      assert forall i :: 0 <= i < |rest| ==> rest[i] == devices[i + 1];
      if devices[0].key != key {
        if DeviceHolds(rest, key, file) {
          var i :| 0 <= i < |rest| && rest[i] == Device(key, file) && forall j :: 0 <= j < i ==> rest[j].key != key;
          assert devices[i + 1] == Device(key, file);
          assert forall j :: 0 < j < i + 1 ==> devices[j] == rest[j - 1];
        }
        if DeviceHolds(devices, key, file) {
          var i :| 0 <= i < |devices| && devices[i] == Device(key, file) && forall j :: 0 <= j < i ==>
              devices[j].key != key;
          assert rest[i - 1] == Device(key, file);
        }
      }
    }
  }

  /** On arrival the VM is gone, or its recorded device is gone or empty. */
  ghost predicate FreeOnArrival(op: Op, x: Script) {
    || x.details == NotFound
    || (&& OnTarget(op, x)
        && (|| DeviceHolds(x.details.devices, op.target.device, None)
            || forall i :: 0 <= i < |x.details.devices| ==> x.details.devices[i].key != op.target.device))
  }

  /** The recorded device of the recorded VM holds the recorded ISO, and whatever comes first succeeds. */
  ghost predicate SendsDisconnect(op: Op, x: Script) {
    && OnTarget(op, x) && DeviceHolds(x.details.devices, op.target.device, op.target.iso)
    && (x.details.question.Some? ==>
          op.disconnectStarted && Answerable(op.question, x.details.question.value, x.lockWrite, x.lockAnswered))
    && (op.disconnectStarted || x.startWrite == Succeeds)
  }

  ghost predicate SendsEject(op: Op, x: Script) {
    && SendsDisconnect(op, x) && x.disconnected
    && Smooth(if x.details.question.Some? then x.details.question.value.id else op.question, x.ticks)
  }

  ghost predicate Complete(op: Op) {
    op.target.uuid.Some? && op.target.iso.Some?
  }

  /** The script of a call that reports success. */
  ghost predicate Clears(op: Op, x: Script) {
    && Complete(op)
    && (|| FreeOnArrival(op, x)
        || (&& SendsEject(op, x) && x.ejected && x.observed.Details?
            && forall i :: 0 <= i < |x.observed.devices| ==>
                 !(x.observed.devices[i].key == op.target.device && x.observed.devices[i].file == op.target.iso)))
  }

  /** A disconnect and then an eject were sent from position n on. */
  ghost predicate DisconnectedThenEjected(log: seq<Event>, n: nat) {
    exists i, j :: n <= i < j < |log| && log[i].Disconnect? && log[j].Eject?
  }

  ghost predicate NoneOf(log: seq<Event>, n: nat, eject: bool) {
    forall i :: n <= i < |log| ==> if eject then !log[i].Eject? else !log[i].Disconnect?
  }

  /** The commands of a call that gets as far as the eject: answer, disconnect, answers, eject, and no others. */
  ghost predicate FullSequence(log: seq<Event>, n: nat, x: Script) {
    if x.details.Details? && x.details.question.Some? then
      && |log| > n && log[n].Answer? && Some(log[n].id) == x.details.question.value.id
      && EjectSequence(log, n + 1, Posed(x.ticks))
    else EjectSequence(log, n, Posed(x.ticks))
  }

  ghost predicate EjectSequence(log: seq<Event>, n: nat, ids: seq<nat>) {
    && |log| == n + 2 + |ids| && log[n].Disconnect? && log[|log| - 1].Eject?
    && forall i :: n < i < |log| - 1 ==> log[i].Answer? && log[i].id == ids[i - n - 1]
  }

  lemma DisconnectPhase(s: Sys, mode: Mode, x: Script)
    ensures var (s', ok) := DisconnectAndEject(s, mode, x);
            var starts := s.op.disconnectStarted || x.startWrite == Succeeds;
            var ejects := starts && x.disconnected && Smooth(s.op.question, x.ticks);
            && (ok <==> ejects && x.ejected && x.observed.Details? && !Backs(x.observed.devices, s.op.target))
            && (!starts ==> s'.log == s.log)
            && (starts ==> |s'.log| > |s.log| && s'.log[|s.log|].Disconnect?)
            && (starts && !ejects ==> NoneOf(s'.log, |s.log|, true))
            && (ejects ==> EjectSequence(s'.log, |s.log|, Posed(x.ticks)))
  {
    var (s1, ok) :=
      if s.op.disconnectStarted then (s, true)
      else Checkpoint(SetOp(s, s.op.(disconnectStarted := true)), mode, x.startWrite);
    if ok {
      var s2 := Issue(s1, Disconnect(s1.durable));
      var (s3, ok2) := PollLoop(s2, mode, x.ticks, x.disconnected);
      PollLoopSucceedsIff(s2, mode, x.ticks, x.disconnected);
      PollsAnswerOnlyLocks(s2, mode, x.ticks, x.disconnected);
      hide Smooth, Posed, PollLoop, LockPolled, Backs, Checkpoint;
      assert s3.log[|s.log|] == s3.log[..|s2.log|][|s.log|] == s2.log[|s.log|];
      if ok2 {
        IssuedAfterAnswers(s3, |s.log|, Posed(x.ticks));
      }
    }
  }

  lemma IssuedAfterAnswers(s: Sys, n: nat, ids: seq<nat>)
    requires n < |s.log| && s.log[n].Disconnect? && Answered(s.log, n + 1, ids)
    ensures EjectSequence(Issue(s, Eject(s.durable)).log, n, ids)
  {}

  /** Success of a call can be read off its script and the record. */
  lemma CallSucceedsIff(s: Sys, mode: Mode, x: Script)
    ensures EjectISO(s, mode, x).1 <==> Clears(s.op, x)
  {
    hide DisconnectAndEject, AnswerLock, Smooth, Answerable, DeviceHolds, FindDevice;
    if x.details.Details? {
      FindDeviceMeans(x.details.devices, s.op.target.device, None);
      FindDeviceMeans(x.details.devices, s.op.target.device, s.op.target.iso);
      BackedMeans(x.observed, s.op.target);
      if x.details.question == None {
        DisconnectPhase(s, mode, x);
      } else {
        AnswerLockSucceedsIff(s, mode, x.details.question.value, x.lockWrite, x.lockAnswered);
        DisconnectPhase(AnswerLock(s, mode, x.details.question.value, x.lockWrite, x.lockAnswered).0, mode, x);
      }
    }
  }

  lemma BackedMeans(d: Details, target: Target)
    ensures d.Details? ==>
              (Backs(d.devices, target) <==>
                 exists i :: 0 <= i < |d.devices| && d.devices[i].key == target.device &&
                     d.devices[i].file == target.iso)
  {
    if d.Details? && exists i ::
         0 <= i < |d.devices| && d.devices[i].key == target.device && d.devices[i].file == target.iso {
      var i :| 0 <= i < |d.devices| && d.devices[i].key == target.device && d.devices[i].file == target.iso;
      assert d.devices[i] == Device(target.device, target.iso);
    }
  }

  /**
   * Which commands a call sends: a disconnect if and only if the recorded device still holds the
   * ISO and what comes before succeeds; an eject if and only if moreover the polls go smoothly, as
   * the last command, with every question answered once and in order.
   */
  lemma CallCommands(s: Sys, mode: Mode, x: Script)
    ensures var log := EjectISO(s, mode, x).0.log;
            && (Complete(s.op) && SendsEject(s.op, x) ==> FullSequence(log, |s.log|, x))
            && (!(Complete(s.op) && SendsEject(s.op, x)) ==> NoneOf(log, |s.log|, true))
            && (Complete(s.op) && SendsDisconnect(s.op, x) ==>
                  exists i :: |s.log| <= i < |log| && log[i].Disconnect?)
            && (!(Complete(s.op) && SendsDisconnect(s.op, x)) ==> NoneOf(log, |s.log|, false))
  {
    hide DisconnectAndEject, AnswerLock, Smooth, DeviceHolds, FindDevice, Posed, EjectSequence;
    if x.details.Details? {
      FindDeviceMeans(x.details.devices, s.op.target.device, None);
      FindDeviceMeans(x.details.devices, s.op.target.device, s.op.target.iso);
      if x.details.question == None {
        DisconnectPhase(s, mode, x);
      } else if s.op.disconnectStarted {
        var (s1, ok) := AnswerLock(s, mode, x.details.question.value, x.lockWrite, x.lockAnswered);
        AnswerLockSucceedsIff(s, mode, x.details.question.value, x.lockWrite, x.lockAnswered);
        if ok {
          DisconnectPhase(s1, mode, x);
          DisconnectAndEjectExtends(s1, mode, x);
          var log := DisconnectAndEject(s1, mode, x).0.log;
          assert log[|s.log|] == log[..|s1.log|][|s.log|] == s1.log[|s.log|];
          assert log[|s.log| + 1].Disconnect?;
        } else {
          FailedAnswerSendsNothing(s, mode, x.details.question.value, x.lockWrite, x.lockAnswered);
        }
      }
    }
  }

  lemma FailedAnswerSendsNothing(s: Sys, mode: Mode, q: Question, write: WriteOutcome, answered: bool)
    ensures var log := AnswerLock(s, mode, q, write, answered).0.log;
            NoneOf(log, |s.log|, true) && NoneOf(log, |s.log|, false)
  {}

  // ---------- What clears a record ----------

  /** One reconcile clears the record if and only if its call succeeds and the status write lands. */
  lemma ReconcileClearsIff(l: Life, mode: Mode, x: Script, write: WriteOutcome)
    requires l.record.Some?
    ensures Reconcile(l, mode, x, write).record == None <==> Clears(l.record.value, x) && write != Fails
  {
    hide EjectISO, Clears;
    var op := l.record.value;
    CallSucceedsIff(Sys(op, op, true, op, l.log), mode, x);
  }

  /**
   * Once a call finds the recorded device still holding the ISO and nothing in its way, the start of
   * the disconnect is on record afterwards, even if its own checkpoint failed: the status write at
   * the end of the reconcile stores it.
   */
  lemma StartIsStored(l: Life, mode: Mode, x: Script, write: WriteOutcome)
    requires LifeOK(l) && l.record.Some? && Complete(l.record.value) && write != Fails
    requires OnTarget(l.record.value, x) && x.details.question == None
    requires DeviceHolds(x.details.devices, l.record.value.target.device, l.record.value.target.iso)
    ensures var r := Reconcile(l, mode, x, write).record; r == None || r.value.disconnectStarted
  {
    var op := l.record.value;
    var s := Sys(op, op, true, op, l.log);
    FindDeviceMeans(x.details.devices, op.target.device, op.target.iso);
    hide FindDevice, DeviceHolds;
    assert EjectISO(s, mode, x) == DisconnectAndEject(s, mode, x);
    var (s1, ok) :=
      if s.op.disconnectStarted then (s, true)
      else Checkpoint(SetOp(s, s.op.(disconnectStarted := true)), mode, x.startWrite);
    if ok {
      PollLoopKeeps(Issue(s1, Disconnect(s1.durable)), mode, x.ticks, x.disconnected);
    }
  }

  /** The record before attempt k. */
  function Before(l: Life, mode: Mode, xs: seq<(Script, WriteOutcome)>, k: nat): Life
    requires k <= |xs|
  {
    Attempts(l, mode, xs[..k])
  }

  /** Attempt k found the record and cleared it. */
  ghost predicate ClearedAt(l: Life, mode: Mode, xs: seq<(Script, WriteOutcome)>, k: int) {
    && 0 <= k < |xs| && Before(l, mode, xs, k).record.Some?
    && Clears(Before(l, mode, xs, k).record.value, xs[k].0) && xs[k].1 != Fails
  }

  lemma LaterAttempts(l: Life, mode: Mode, xs: seq<(Script, WriteOutcome)>, k: nat)
    requires xs != [] && k < |xs|
    ensures Before(l, mode, xs, k + 1) == Before(Reconcile(l, mode, xs[0].0, xs[0].1), mode, xs[1..], k)
  {
    assert xs[..k + 1][1..] == xs[1..][..k];
  }

  /** Over any number of attempts the record goes if and only if one of them clears it. */
  lemma {:induction false} ClearedIff(l: Life, mode: Mode, xs: seq<(Script, WriteOutcome)>)
    requires l.record.Some?
    ensures Attempts(l, mode, xs).record == None <==> exists k :: ClearedAt(l, mode, xs, k)
    decreases |xs|
  {
    hide Reconcile, Clears;
    if xs != [] {
      var l' := Reconcile(l, mode, xs[0].0, xs[0].1);
      ReconcileClearsIff(l, mode, xs[0].0, xs[0].1);
      assert Before(l, mode, xs, 0) == l;
      if l'.record == None {
        NothingLeft(l', mode, xs[1..]);
        assert ClearedAt(l, mode, xs, 0);
      } else {
        ClearedIff(l', mode, xs[1..]);
        forall k: nat | k < |xs[1..]| ensures ClearedAt(l', mode, xs[1..], k) <==> ClearedAt(l, mode, xs, k + 1) {
          LaterAttempts(l, mode, xs, k);
        }
        if k :| ClearedAt(l, mode, xs, k) {
          assert k > 0 && ClearedAt(l', mode, xs[1..], k - 1);
        }
        if k :| ClearedAt(l', mode, xs[1..], k) {
          assert ClearedAt(l, mode, xs, k + 1);
        }
      }
    }
  }

  lemma {:induction false} NothingLeft(l: Life, mode: Mode, xs: seq<(Script, WriteOutcome)>)
    requires l.record == None
    ensures Attempts(l, mode, xs) == l
    decreases |xs|
  {
    if xs != [] {
      NothingLeft(l, mode, xs[1..]);
    }
  }

  /**
   * The attempt that cleared a record saw the VM gone or its device free on arrival, or sent the
   * disconnect and then the eject and saw the device free of the ISO afterwards.
   */
  lemma ClearedOnlyAfterEject(l: Life, mode: Mode, xs: seq<(Script, WriteOutcome)>) returns (k: nat)
    requires l.record.Some? && Attempts(l, mode, xs).record == None
    ensures ClearedAt(l, mode, xs, k)
    ensures var before := Before(l, mode, xs, k);
            || FreeOnArrival(before.record.value, xs[k].0)
            || DisconnectedThenEjected(Before(l, mode, xs, k + 1).log, |before.log|)
  {
    ClearedIff(l, mode, xs);
    var c :| ClearedAt(l, mode, xs, c);
    k := c;
    var before := Before(l, mode, xs, k);
    LastAttempt(l, mode, xs, k);
    if !FreeOnArrival(before.record.value, xs[k].0) {
      hide EjectISO, SendsEject, FreeOnArrival;
      var op := before.record.value;
      CallCommands(Sys(op, op, true, op, before.log), mode, xs[k].0);
      SequenceEjects(Before(l, mode, xs, k + 1).log, |before.log|, xs[k].0);
    }
  }

  lemma SequenceEjects(log: seq<Event>, n: nat, x: Script)
    requires FullSequence(log, n, x)
    ensures DisconnectedThenEjected(log, n)
  {
    var m := if x.details.Details? && x.details.question.Some? then n + 1 else n;
    assert log[m].Disconnect? && log[|log| - 1].Eject?;
  }

  lemma {:induction false} LastAttempt(l: Life, mode: Mode, xs: seq<(Script, WriteOutcome)>, k: nat)
    requires k < |xs|
    ensures Before(l, mode, xs, k + 1) == Reconcile(Before(l, mode, xs, k), mode, xs[k].0, xs[k].1)
    decreases |xs|
  {
    hide Reconcile;
    LaterAttempts(l, mode, xs, k);
    var l' := Reconcile(l, mode, xs[0].0, xs[0].1);
    if k == 0 {
      assert Before(l, mode, xs, 0) == l && Before(l', mode, xs[1..], 0) == l';
    } else {
      LastAttempt(l', mode, xs[1..], k - 1);
      LaterAttempts(l, mode, xs, k - 1);
    }
  }
}
