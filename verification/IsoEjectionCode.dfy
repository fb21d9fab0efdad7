/**
 * ISO ejection on heap objects. EjectISO keeps the object op that it was given, while every
 * successful status write makes agent.Status point to a new copy; each method is proved to do
 * what IsoEjection says, where that aliasing is the field Sys.shared.
 */
module IsoEjectionCode {
  import opened Common
  import opened IsoEjection

  class Record {
    const target: Target
    var disconnectStarted: bool
    var question: Option<nat>

    function Value(): Op reads this {
      Op(target, disconnectStarted, question)
    }

    /** The deep copy of a record is a new object. */
    constructor (op: Op)
      ensures Value() == op
    {
      target, disconnectStarted, question := op.target, op.disconnectStarted, op.question;
    }
  }

  /** The first device with the given key. */
  method FindTarget(devices: seq<Device>, key: nat) returns (found: Option<Device>)
    ensures found == FindDevice(devices, key)
  {
    var i := 0;
    while i < |devices|
      invariant 0 <= i <= |devices|
      invariant FindDevice(devices, key) == FindDevice(devices[i..], key)
    {
      if devices[i].key == key {
        return Some(devices[i]);
      }
      i := i + 1;
    }
    return None;
  }

  /** Whether any device still backs the recorded ISO. */
  method StillBacked(devices: seq<Device>, target: Target) returns (backed: bool)
    ensures backed == Backs(devices, target)
  {
    for i := 0 to |devices|
      invariant forall j :: 0 <= j < i ==> devices[j] != Device(target.device, target.iso)
    {
      if devices[i].key == target.device && devices[i].file == target.iso {
        assert devices[i] == Device(target.device, target.iso);
        return true;
      }
    }
    return false;
  }

  datatype Prepared = Refused | NothingAttached | Authorized(op: Op)

  /**
   * PrepareISOEjection: read-only. An ejection is authorized only for the VM itself, without a
   * pending question, and for a device that backs a cached ISO; nothing is recorded as started.
   */
  method Prepare(uuid: Option<nat>, owner: Option<nat>, cached: set<nat>, d: Details) returns (r: Prepared)
    ensures r.Authorized? ==>
              && d.Details? && r.op.target.uuid == uuid && r.op.target.owner == owner
              && !r.op.disconnectStarted && r.op.question == None
              && exists i :: 0 <= i < |d.devices| && d.devices[i] == Device(r.op.target.device, r.op.target.iso)
                   && r.op.target.iso.Some? && r.op.target.iso.value in cached
                   && forall j :: 0 <= j < i && d.devices[j].file.Some? ==> d.devices[j].file.value !in cached
    ensures r.NothingAttached? ==>
              d.Details? && forall i :: 0 <= i < |d.devices| && d.devices[i].file.Some? ==>
                  d.devices[i].file.value !in cached
    ensures !r.Refused? <==>
              && uuid.Some? && d.Details? && d.uuid == uuid && (owner.Some? ==> d.owner == owner)
              && d.question == None
  {
    if uuid == None || !SameVM(d, Target(uuid, owner, 0, None)) || d.question.Some? {
      return Refused;
    }
    for i := 0 to |d.devices|
      invariant forall j :: 0 <= j < i && d.devices[j].file.Some? ==> d.devices[j].file.value !in cached
    {
      var device := d.devices[i];
      if device.file.Some? && device.file.value in cached {
        var target := Target(uuid, owner, device.key, device.file);
        assert d.devices[i] == Device(target.device, target.iso);
        return Authorized(Op(target, false, None));
      }
    }
    return NothingAttached;
  }

  class Controller {
    /** agent.Status.ISOEjection */
    var ejection: Record?
    /** the record in the API server */
    var durable: Option<Op>
    ghost var log: seq<Event>

    /** The system as seen by a call that works on op. */
    ghost function View(op: Record): Sys
      requires ejection != null && durable.Some?
      reads this, op, ejection
    {
      Sys(op.Value(), ejection.Value(), op == ejection, durable.value, log)
    }

    ghost function AsLife(): Life reads this {
      Life(durable, log)
    }

    constructor (target: Target)
      ensures AsLife() == NewEjection(target)
    {
      ejection, durable, log := null, Some(Op(target, false, None)), [];
    }

    /** updateStatus: stores agent.Status and replaces it by the stored copy. */
    method UpdateStatus(write: WriteOutcome) returns (ok: bool)
      modifies this
      ensures log == old(log) && (ok <==> write == Succeeds)
      ensures durable == if write == Fails then old(durable) else if old(ejection) == null then None
              else Some(old(ejection.Value()))
      ensures !ok ==> ejection == old(ejection)
      ensures ok && old(ejection) != null ==> ejection != null && fresh(ejection) && Some(ejection.Value()) == durable
      ensures ok && old(ejection) == null ==> ejection == null
    {
      var desired: Record? := null;
      if ejection != null {
        desired := new Record(ejection.Value());
      }
      if write == Fails {
        return false;
      }
      durable := if desired == null then None else Some(desired.Value());
      if write == LandsButFails {
        return false;
      }
      ejection := desired;
      return true;
    }

    /** Either the checkpoint EjectISO asks for, or the closure that finishISOEjection passes. */
    method RunCheckpoint(op: Record, mode: Mode, write: WriteOutcome) returns (ok: bool)
      requires ejection != null && durable.Some?
      modifies this
      ensures ejection != null && durable.Some? && (ejection == old(ejection) || fresh(ejection))
      ensures (View(op), ok) == Checkpoint(old(View(op)), mode, write)
    {
      match mode
      case PersistStatus => ok := UpdateStatus(write);
      case PersistOp =>
        ok := write == Succeeds;
        if write != Fails {
          durable := Some(op.Value());
        }
        if ok {
          ejection := new Record(op.Value());
        }
    }

    method AnswerISOLock(op: Record, mode: Mode, q: Question, write: WriteOutcome, answered: bool) returns (ok: bool)
      requires ejection != null && durable.Some?
      modifies this, op
      ensures ejection != null && durable.Some? && (ejection == old(ejection) || fresh(ejection))
      ensures (View(op), ok) == AnswerLock(old(View(op)), mode, q, write, answered)
    {
      if !q.lock || q.id == None || (op.question.Some? && op.question != q.id) {
        return false;
      }
      if op.question == None {
        op.question := q.id;
        ok := RunCheckpoint(op, mode, write);
        if !ok {
          return;
        }
      }
      log := log + [Answer(q.id.value, durable.value)];
      return answered;
    }

    /** The loop runs until the command ends, times out, or a poll fails. */
    method DisconnectInstallationMedia(op: Record, mode: Mode, ticks: seq<Tick>, disconnected: bool) returns (ok: bool)
      requires ejection != null && durable.Some?
      modifies this, op
      ensures ejection != null && durable.Some? && (ejection == old(ejection) || fresh(ejection))
      ensures (View(op), ok)
              == PollLoop(Issue(old(View(op)), Disconnect(old(durable.value))), mode, ticks, disconnected)
    {
      log := log + [Disconnect(durable.value)];
      ghost var start := View(op);
      var i := 0;
      while i < |ticks|
        invariant 0 <= i <= |ticks|
        invariant ejection != null && durable.Some? && (ejection == old(ejection) || fresh(ejection))
        invariant PollLoop(start, mode, ticks, disconnected) == PollLoop(View(op), mode, ticks[i..], disconnected)
      {
        assert ticks[i..][1..] == ticks[i + 1..];
        if ticks[i].PollError? {
          return false;
        }
        if ticks[i].question.Some? {
          ok := AnswerISOLock(op, mode, ticks[i].question.value, ticks[i].write, ticks[i].answered);
          if !ok {
            return;
          }
        }
        i := i + 1;
      }
      return disconnected;
    }

    method DisconnectThenEject(op: Record, mode: Mode, x: Script) returns (ok: bool)
      requires ejection != null && durable.Some?
      modifies this, op
      ensures ejection != null && durable.Some? && (ejection == old(ejection) || fresh(ejection))
      ensures (View(op), ok) == DisconnectAndEject(old(View(op)), mode, x)
    {
      hide Checkpoint, PollLoop, Backs;
      if !op.disconnectStarted {
        op.disconnectStarted := true;
        ok := RunCheckpoint(op, mode, x.startWrite);
        if !ok {
          return;
        }
      }
      ok := DisconnectInstallationMedia(op, mode, x.ticks, x.disconnected);
      if !ok {
        return;
      }
      log := log + [Eject(durable.value)];
      if !x.ejected || !x.observed.Details? {
        return false;
      }
      var backed := StillBacked(x.observed.devices, op.target);
      return !backed;
    }

    method EjectMedia(op: Record, mode: Mode, x: Script) returns (ok: bool)
      requires ejection != null && durable.Some?
      modifies this, op
      ensures ejection != null && durable.Some? && (ejection == old(ejection) || fresh(ejection))
      ensures (View(op), ok) == EjectISO(old(View(op)), mode, x)
    {
      if op.target.uuid == None || op.target.iso == None {
        return false;
      }
      if x.details == NotFound {
        return true;
      }
      if !SameVM(x.details, op.target) {
        return false;
      }
      var found := FindTarget(x.details.devices, op.target.device);
      if found == None || found.value.file == None {
        return true;
      }
      if found.value.file != op.target.iso {
        return false;
      }
      if x.details.question.Some? {
        if !op.disconnectStarted {
          return false;
        }
        ok := AnswerISOLock(op, mode, x.details.question.value, x.lockWrite, x.lockAnswered);
        if !ok {
          return;
        }
      }
      ok := DisconnectThenEject(op, mode, x);
    }

    /** Resumes a recorded ejection, then stores agent.Status whether or not it was cleared. */
    method ResumeEjection(mode: Mode, x: Script, write: WriteOutcome)
      modifies this
      ensures AsLife() == Reconcile(old(AsLife()), mode, x, write)
    {
      if durable == None {
        return;
      }
      var op := new Record(durable.value);
      ejection := op;
      var ok := EjectMedia(op, mode, x);
      if ok {
        ejection := null;
      }
      var _ := UpdateStatus(write);
    }

    /** Any number of reconciles of one ejection. */
    method ResumeAll(mode: Mode, xs: seq<(Script, WriteOutcome)>)
      modifies this
      ensures AsLife() == Attempts(old(AsLife()), mode, xs)
      ensures LifeOK(old(AsLife())) ==> LifeOK(AsLife())
    {
      var i := 0;
      while i < |xs|
        invariant 0 <= i <= |xs|
        invariant Attempts(old(AsLife()), mode, xs) == Attempts(AsLife(), mode, xs[i..])
      {
        assert xs[i..][1..] == xs[i + 1..];
        ResumeEjection(mode, xs[i].0, xs[i].1);
        i := i + 1;
      }
      if LifeOK(old(AsLife())) {
        DisconnectOnlyAfterCheckpoint(old(AsLife()), mode, xs);
      }
    }
  }
}
