/**
 Overdue reminders of open operations: a periodic generator arms one durable
 task, a retryable handler sends, and the operation row keeps the sequence.
 */
module Reminders {
  import opened Base
  import opened TaskStore
  import Runs = TaskRuns

  type Device = string
  type Record = nat

  const OVERDUE := "NOTIFY_OPERATION_OVERDUE"

  datatype Notice = NoticePending | Sent | SkippedNoInitiator | FailedFinal | RetryExhausted

  // `observedFrom` is the creation time of the registration last accepted.
  datatype Operation = Operation(
    record: Record, observedFrom: int, open: bool, startedAt: int, initiator: Option<string>,
    initiatorType: Option<string>, status: Option<Notice>, at: Option<int>, sequence: Option<nat>)
  {
    predicate Known() { initiator.GetOr("") != "" && initiatorType.GetOr("") != "" }

    function Number(): nat { sequence.GetOr(0) }

    // A blank entry is never filled in again, so the recipient stays unknown.
    predicate CanBeKnown() { initiator != Some("") && initiatorType != Some("") }

    function Noted(s: Notice, now: int, n: nat): Operation {
      this.(status := Some(s), at := if s in {Sent, RetryExhausted} then Some(now) else at, sequence := Some(n))
    }
  }

  datatype Observation = Observation(record: Record, createdAt: int, starts: bool, initiator: Option<string>,
                                     initiatorType: Option<string>, noted: bool)

  datatype Policy = Policy(overdueAfter: int, repeatEvery: int)

  // One request to the messenger, and whether its delivery was recorded.
  datatype Attempt = Attempt(device: Device, record: Record, startedAt: int, sequence: nat, at: int, recorded: bool)

  datatype Reply = CrashBeforeSend | Delivered | Unrecorded | Retryable | Rejected

  // ------------------------------------------------------- operations

  predicate Accepted(ops: map<Device, Operation>, d: Device, obs: Observation) {
    d in ops ==> obs.createdAt > ops[d].observedFrom
  }

  function Coalesce<T>(a: Option<T>, b: Option<T>): Option<T> { if a.Some? then a else b }

  function Saved(ops: map<Device, Operation>, d: Device, obs: Observation): Operation {
    if obs.starts then
      Operation(obs.record, obs.createdAt, true, obs.createdAt, obs.initiator, obs.initiatorType, None, None, None)
    else if d in ops then ops[d].(record := obs.record, observedFrom := obs.createdAt, open := false)
    else Operation(obs.record, obs.createdAt, false, obs.createdAt, None, None, None, None, None)
  }

  function Refreshed(o: Operation, obs: Observation): Operation {
    if !o.open then o
    else o.(initiator := Coalesce(o.initiator, obs.initiator),
            initiatorType := Coalesce(o.initiatorType, obs.initiatorType),
            status := if o.status == Some(SkippedNoInitiator) then None else o.status)
  }

  function Observed(ops: map<Device, Operation>, d: Device, obs: Observation): map<Device, Operation> {
    if Accepted(ops, d, obs) then ops[d := Saved(ops, d, obs)]
    else if obs.record == ops[d].record && (obs.initiator.GetOr("") != "" || obs.noted)
    then ops[d := Refreshed(ops[d], obs)]
    else ops
  }

  predicate StillOpen(ops: map<Device, Operation>, d: Device, record: Record) {
    d in ops && ops[d].open && ops[d].record == record
  }

  function Notified(ops: map<Device, Operation>, d: Device, record: Record, s: Notice, now: int, n: nat)
    : map<Device, Operation>
  {
    if StillOpen(ops, d, record) then ops[d := ops[d].Noted(s, now, n)] else ops
  }

  class OperationRepository {
    var rows: map<Device, Operation>

    constructor ()
      ensures rows == map[]
    {
      rows := map[];
    }

    method Apply(d: Device, obs: Observation) returns (accepted: bool)
      modifies this
      ensures rows == Observed(old(rows), d, obs) && accepted == Accepted(old(rows), d, obs)
      ensures accepted <==> d !in old(rows) || old(rows)[d].observedFrom < obs.createdAt
      ensures rows.Keys == old(rows).Keys + {d} && forall e :: e in old(rows) && e != d ==> rows[e] == old(rows)[e]
      ensures accepted ==>
                rows[d].record == obs.record && rows[d].observedFrom == obs.createdAt && rows[d].open == obs.starts
      ensures accepted && obs.starts ==>
                && rows[d].startedAt == obs.createdAt && rows[d].status.None? && rows[d].at.None?
                && rows[d].sequence.None? && rows[d].initiator == obs.initiator
                && rows[d].initiatorType == obs.initiatorType
      ensures accepted && !obs.starts && d in old(rows) ==>
                rows[d] == old(rows)[d].(record := obs.record, observedFrom := obs.createdAt, open := false)
      ensures !accepted ==>
                rows[d] == old(rows)[d].(initiator := rows[d].initiator, initiatorType := rows[d].initiatorType,
                                         status := rows[d].status)
      ensures !accepted && (obs.record != old(rows)[d].record || !old(rows)[d].open) ==> rows == old(rows)
      ensures !accepted && obs.initiator.GetOr("") == "" && !obs.noted ==> rows == old(rows)
      ensures !accepted && obs.record == old(rows)[d].record && old(rows)[d].open
              && (obs.initiator.GetOr("") != "" || obs.noted) ==>
                && (old(rows)[d].initiator.None? ==> rows[d].initiator == obs.initiator)
                && (old(rows)[d].initiatorType.None? ==> rows[d].initiatorType == obs.initiatorType)
                && (old(rows)[d].initiator.Some? ==> rows[d].initiator == old(rows)[d].initiator)
                && (old(rows)[d].initiatorType.Some? ==> rows[d].initiatorType == old(rows)[d].initiatorType)
                && rows[d].status == (if old(rows)[d].status == Some(SkippedNoInitiator) then None
                                      else old(rows)[d].status)
    {
      if d in rows && obs.createdAt <= rows[d].observedFrom {
        if obs.record == rows[d].record && (obs.initiator.GetOr("") != "" || obs.noted) { RefreshInitiator(d, obs); }
        return false;
      }
      SaveCurrent(d, obs);
      accepted := true;
    }

    method SaveCurrent(d: Device, obs: Observation)
      modifies this
      ensures rows == old(rows)[d := Saved(old(rows), d, obs)]
    {
      var status, at, sequence, initiator, initiatorType := None, None, None, obs.initiator, obs.initiatorType;
      var started := obs.createdAt;
      if !obs.starts {
        initiator, initiatorType := None, None;
        if d in rows {
          var previous := rows[d];
          started := previous.startedAt;
          initiator, initiatorType := previous.initiator, previous.initiatorType;
          status, at, sequence := previous.status, previous.at, previous.sequence;
        }
      }
      rows := rows[d := Operation(obs.record, obs.createdAt, obs.starts, started, initiator, initiatorType,
                                  status, at, sequence)];
    }

    method RefreshInitiator(d: Device, obs: Observation)
      requires d in rows
      modifies this
      ensures rows == old(rows)[d := Refreshed(old(rows)[d], obs)]
    {
      var o := rows[d];
      if o.open {
        if o.initiator.None? { o := o.(initiator := obs.initiator); }
        if o.initiatorType.None? { o := o.(initiatorType := obs.initiatorType); }
        if o.status == Some(SkippedNoInitiator) { o := o.(status := None); }
      }
      rows := rows[d := o];
    }

    method UpdateOverdueNotification(d: Device, record: Record, s: Notice, now: int, n: nat) returns (updated: bool)
      modifies this
      ensures rows == Notified(old(rows), d, record, s, now, n) && updated == StillOpen(old(rows), d, record)
      ensures updated <==> d in old(rows) && old(rows)[d].open && old(rows)[d].record == record
      ensures if !updated then rows == old(rows) else
                && rows.Keys == old(rows).Keys && (forall e :: e in old(rows) && e != d ==> rows[e] == old(rows)[e])
                && rows[d] == old(rows)[d].(status := Some(s), at := rows[d].at, sequence := Some(n))
                && rows[d].at == (if s == Sent || s == RetryExhausted then Some(now) else old(rows)[d].at)
    {
      if d !in rows || !rows[d].open || rows[d].record != record { return false; }
      var o := rows[d].(status := Some(s), sequence := Some(n));
      if s == Sent || s == RetryExhausted { o := o.(at := Some(now)); }
      rows := rows[d := o];
      updated := true;
    }
  }

  // ------------------------------------------------------- generator and handler

  function Decimal(n: nat): string {
    var digit := "0123456789"[n % 10];
    if n < 10 then [digit] else Decimal(n / 10) + [digit]
  }

  function ReminderKey(d: Device, record: Record, n: nat): string {
    OVERDUE + ":" + d + ":" + Decimal(record) + ":" + Decimal(n)
  }

  function ReminderRequest(d: Device, o: Operation, n: nat, now: int): Request {
    Request(OVERDUE, d, now, Payload(None, o.record, n, 0), ReminderKey(d, o.record, n), now)
  }

  // Sequence number and due time of the next reminder, unless there is none.
  function NextReminder(o: Operation, p: Policy, now: int): Option<(nat, int)> {
    match o.status
    case None => Some((0, o.startedAt + p.overdueAfter))
    case Some(NoticePending) => Some((o.Number(), now))
    case Some(Sent) =>
      Some((o.Number() + 1, if o.at.Some? then o.at.value + p.repeatEvery else o.startedAt + p.overdueAfter))
    case Some(RetryExhausted) => Some((0, o.startedAt + p.overdueAfter))
    case Some(_) => None
  }

  predicate UnfinishedKey(s: Store, key: string) {
    exists id :: id in s.rows && s.rows[id].key == Some(key) && s.rows[id].Unfinished()
  }

  predicate Generates(ops: map<Device, Operation>, s: Store, d: Device, p: Policy, now: int) {
    && p.overdueAfter > 0 && d in ops && ops[d].open
    && NextReminder(ops[d], p, now).Some?
    && NextReminder(ops[d], p, now).value.1 <= now
    && !(ops[d].status == Some(NoticePending) && UnfinishedKey(s, ReminderKey(d, ops[d].record, ops[d].Number())))
  }

  function Arming(ops: map<Device, Operation>, d: Device, p: Policy, now: int): Request
    requires d in ops && NextReminder(ops[d], p, now).Some?
  {
    ReminderRequest(d, ops[d], NextReminder(ops[d], p, now).value.0, now)
  }

  function Backoff(retry: nat): int { Min(3600, 30 * Power2(Min(retry - 1, 7))) }

  function Power2(n: int): int { if n <= 0 then 1 else 2 * Power2(n - 1) }

  function RetryOf(t: Task): Payload { t.payload.(retry := t.payload.retry + 1) }

  datatype World = World(ops: map<Device, Operation>, tasks: Store, log: seq<Attempt>,
                         seen: set<(Device, Record)>, clock: int)

  datatype Step =
    | Observe(d: Device, obs: Observation, now: int)
    | Generate(d: Device, now: int, id: Id, winner: Option<Id>)
    | Handle(task: Id, now: int, reply: Reply)
    | Work(op: Runs.Op, now: int)

  function Handled(w: World, id: Id, now: int, reply: Reply): World
    requires id in w.tasks.rows
  {
    var t := w.tasks.rows[id];
    var d, record, n := t.entity, t.payload.record, t.payload.sequence;
    if !StillOpen(w.ops, d, record) then w
    else if !w.ops[d].Known() then w.(ops := Notified(w.ops, d, record, SkippedNoInitiator, now, n))
    else
      var pending := w.(ops := Notified(w.ops, d, record, NoticePending, now, n));
      var tried := pending.(log := w.log + [Attempt(d, record, w.ops[d].startedAt, n, now, reply == Delivered)]);
      match reply
      case CrashBeforeSend => pending
      case Delivered => tried.(ops := Notified(pending.ops, d, record, Sent, now, n))
      case Unrecorded => tried
      case Retryable =>
        var due := now + Backoff(t.payload.retry + 1);
        tried.(tasks := Runs.OrSame(Reschedule(w.tasks, id, t.worker, due, now, RetryOf(t)), w.tasks))
      case Rejected => tried.(ops := Notified(pending.ops, d, record, FailedFinal, now, n))
  }

  function Next(w: World, st: Step, p: Policy): World
    requires st.Handle? ==> st.task in w.tasks.rows
  {
    match st
    case Observe(d, obs, now) =>
      w.(ops := Observed(w.ops, d, obs), clock := now,
         seen := if Accepted(w.ops, d, obs) then w.seen + {(d, obs.record)} else w.seen)
    case Generate(d, now, id, winner) =>
      if Generates(w.ops, w.tasks, d, p, now)
      then
        var armed := CreateUnfinished(w.tasks, id, Arming(w.ops, d, p, now), winner);
        w.(tasks := Runs.OrSame(armed, w.tasks), clock := now)
      else w.(clock := now)
    case Handle(id, now, reply) => Handled(w, id, now, reply).(clock := now)
    case Work(op, now) => w.(tasks := Runs.Next(w.tasks, op), clock := now)
  }

  // The clock never runs back and is what a claim reads, epochs are new, only the
  // generator arms reminders, and only the handler reschedules them.
  ghost predicate Enabled(w: World, st: Step, p: Policy) {
    && w.clock <= st.now
    && match st
       case Observe(_, _, _) => true
       case Generate(d, now, id, winner) =>
         Generates(w.ops, w.tasks, d, p, now) ==>
           id !in w.tasks.rows && IsWinner(w.tasks, Arming(w.ops, d, p, now), winner)
       case Handle(id, _, _) =>
         id in w.tasks.rows && w.tasks.rows[id].taskType == OVERDUE && w.tasks.rows[id].status == Running
       case Work(op, now) => Runs.Enabled(w.tasks, op) && Proper(w.tasks, op, now)
  }

  ghost predicate Proper(s: Store, op: Runs.Op, now: int) {
    && (op.Take? ==> op.now == now)
    && (op.SetMode? ==> forall id :: id in s.rows ==> s.rows[id].epoch != Some(op.epoch))
    && ((op.New? || op.NewUnfinished?) ==> op.req.taskType != OVERDUE)
    && (op.Postpone? && op.id in s.rows ==> s.rows[op.id].taskType != OVERDUE)
  }

  // ------------------------------------------------------- invariant

  // Start of the operation, the grace period, then one interval per reminder.
  function Deadline(startedAt: int, n: nat, p: Policy): int {
    if n == 0 then startedAt + p.overdueAfter else Deadline(startedAt, n - 1, p) + p.repeatEvery
  }

  predicate SameOperation(a: Attempt, b: Attempt) {
    a.device == b.device && a.record == b.record && a.startedAt == b.startedAt
  }

  // A recorded delivery of the number before, one interval ago.
  predicate Precedes(a: Attempt, d: Device, record: Record, startedAt: int, n: nat, at: int, p: Policy) {
    && a.device == d && a.record == record && a.startedAt == startedAt && a.sequence == n - 1 && a.recorded
    && a.at + p.repeatEvery <= at
  }

  // Number n may go out at this time.
  predicate Ready(log: seq<Attempt>, d: Device, record: Record, startedAt: int, n: nat, at: int, p: Policy) {
    && Deadline(startedAt, n, p) <= at
    && (n > 0 ==> exists j :: 0 <= j < |log| && Precedes(log[j], d, record, startedAt, n, at, p))
  }

  // No attempt is early, and numbers of one operation neither skip nor fall.
  ghost predicate LogOk(log: seq<Attempt>, p: Policy) {
    && (forall i :: 0 <= i < |log| ==>
          Ready(log[..i], log[i].device, log[i].record, log[i].startedAt, log[i].sequence, log[i].at, p))
    && (forall i, j :: 0 <= i < j < |log| && SameOperation(log[i], log[j]) ==> log[i].sequence <= log[j].sequence)
  }

  predicate IsReminder(t: Task, d: Device) { t.taskType == OVERDUE && t.entity == d && t.Unfinished() }

  ghost predicate OneReminder(s: Store) {
    forall i, j, d :: i in s.rows && j in s.rows && IsReminder(s.rows[i], d) && IsReminder(s.rows[j], d) ==> i == j
  }

  predicate CtxOk(c: Context) { c.Installed? && c.mode == Active ==> c.epoch.Some? && c.cutover.Some? }

  // The next claim parks this row instead of running it.
  predicate Doomed(t: Task, c: Context) { Quarantinable(t, c, 0) }

  // A reminder that may still be handled.
  predicate Live(t: Task, d: Device, c: Context) { IsReminder(t, d) && (t.status == Running || !Doomed(t, c)) }

  // No handling can come before this time.
  function Earliest(t: Task, now: int): int { if t.status == Pending then Max(t.due, now) else now }

  predicate NoticeOk(o: Operation, d: Device, log: seq<Attempt>, now: int, p: Policy) {
    && o.status != Some(RetryExhausted)
    && (o.status.None? || o.status == Some(SkippedNoInitiator) || !o.Known() ==> o.Number() == 0)
    && (!o.Known() ==> o.status.None? || o.status == Some(SkippedNoInitiator))
    && (o.status in {Some(NoticePending), Some(Sent)} ==>
          Ready(log, d, o.record, o.startedAt, o.Number(), now, p))
    && (o.status == Some(Sent) ==>
          && o.at.Some? && o.at.value <= now && Deadline(o.startedAt, o.Number(), p) <= o.at.value
          && Attempt(d, o.record, o.startedAt, o.Number(), o.at.value, true) in log)
  }

  // The number a live task carries is the current one or, after a delivery, the
  // next, and may go out as soon as the task can be handled.
  predicate TaskOk(t: Task, o: Operation, d: Device, log: seq<Attempt>, now: int, p: Policy) {
    && (t.payload.sequence == o.Number() || (o.status == Some(Sent) && t.payload.sequence == o.Number() + 1))
    && Ready(log, d, o.record, o.startedAt, t.payload.sequence, Earliest(t, now), p)
  }

  predicate AttemptsOk(o: Operation, d: Device, log: seq<Attempt>) {
    forall i :: 0 <= i < |log| && log[i].device == d && log[i].record == o.record && log[i].startedAt == o.startedAt ==>
      log[i].sequence <= o.Number()
  }

  ghost predicate TasksOk(s: Store, o: Operation, d: Device, log: seq<Attempt>, now: int, p: Policy) {
    forall id :: id in s.rows && Live(s.rows[id], d, s.ctx) && s.rows[id].payload.record == o.record ==>
      TaskOk(s.rows[id], o, d, log, now, p)
  }

  ghost predicate OperationOk(w: World, d: Device, p: Policy)
    requires d in w.ops
  {
    var o := w.ops[d];
    && (o.open ==> o.startedAt == o.observedFrom)
    && (o.open && o.CanBeKnown() ==>
          NoticeOk(o, d, w.log, w.clock, p) && AttemptsOk(o, d, w.log) && TasksOk(w.tasks, o, d, w.log, w.clock, p))
  }

  // Attempts are for operations that have started, and records have been seen.
  ghost predicate SeenOk(w: World) {
    && (forall i :: 0 <= i < |w.log| ==>
          w.log[i].device in w.ops && w.log[i].startedAt <= w.ops[w.log[i].device].observedFrom)
    && (forall id :: id in w.tasks.rows && w.tasks.rows[id].taskType == OVERDUE ==>
          (w.tasks.rows[id].entity, w.tasks.rows[id].payload.record) in w.seen)
    && (forall d :: d in w.ops ==> (d, w.ops[d].record) in w.seen)
  }

  ghost predicate Inv(w: World, p: Policy) {
    && UniqueKeys(w.tasks) && OneReminder(w.tasks) && CtxOk(w.tasks.ctx) && SeenOk(w) && LogOk(w.log, p)
    && forall d :: d in w.ops ==> OperationOk(w, d, p)
  }

  /** What an acceptance must meet: every live reminder of the device that carries
      the same record carries number 0 and cannot be handled before the new deadline. */
  ghost predicate Harmless(w: World, d: Device, obs: Observation, now: int, p: Policy) {
    Accepted(w.ops, d, obs) && obs.starts && Saved(w.ops, d, obs).CanBeKnown() ==>
      forall id :: id in w.tasks.rows && Live(w.tasks.rows[id], d, w.tasks.ctx)
                   && w.tasks.rows[id].payload.record == obs.record ==>
        Fits(w.tasks.rows[id], obs, now, p)
  }

  predicate Fits(t: Task, obs: Observation, now: int, p: Policy) {
    t.payload.sequence == 0 && obs.createdAt + p.overdueAfter <= Earliest(t, now)
  }

  ghost predicate HarmlessStep(w: World, st: Step, p: Policy) { st.Observe? ==> Harmless(w, st.d, st.obs, st.now, p) }

  // ------------------------------------------------------- preservation

  lemma ReadyLater(
    log: seq<Attempt>, more: seq<Attempt>, d: Device, record: Record, startedAt: int, n: nat, at: int, later: int,
    p: Policy)
    requires Ready(log, d, record, startedAt, n, at, p) && at <= later
    ensures Ready(log + more, d, record, startedAt, n, later, p)
  {
    if n > 0 {
      var j :| 0 <= j < |log| && Precedes(log[j], d, record, startedAt, n, at, p);
      assert (log + more)[j] == log[j];
    }
  }

  lemma NoticeLater(
    o: Operation, d: Device, log: seq<Attempt>, more: seq<Attempt>, now: int, later: int, p: Policy)
    requires NoticeOk(o, d, log, now, p) && now <= later
    ensures NoticeOk(o, d, log + more, later, p)
  {
    if o.status in {Some(NoticePending), Some(Sent)} {
      ReadyLater(log, more, d, o.record, o.startedAt, o.Number(), now, later, p);
    }
  }

  // A later row of the same reminder, on a longer log.
  lemma TaskLater(
    t: Task, u: Task, o: Operation, d: Device, log: seq<Attempt>, more: seq<Attempt>, now: int, later: int, p: Policy)
    requires TaskOk(t, o, d, log, now, p) && SameReminder(t, u) && Earliest(t, now) <= Earliest(u, later)
    ensures TaskOk(u, o, d, log + more, later, p)
  {
    ReadyLater(log, more, d, o.record, o.startedAt, t.payload.sequence, Earliest(t, now), Earliest(u, later), p);
  }

  predicate SameReminder(t: Task, u: Task) {
    t.payload.record == u.payload.record && t.payload.sequence == u.payload.sequence
  }

  // Row u came from row t: the same reminder, alive only if t was, and no earlier.
  predicate Follows(t: Task, u: Task, c: Context, c': Context, now: int, now': int) {
    && t.entity == u.entity && t.taskType == u.taskType && SameReminder(t, u)
    && (u.Unfinished() ==> t.Unfinished())
    && (Live(u, u.entity, c') ==> Live(t, t.entity, c) && Earliest(t, now) <= Earliest(u, now'))
  }

  lemma DoomIgnoresTheClock(t: Task, c: Context, now: int)
    requires CtxOk(c)
    ensures Quarantinable(t, c, now) == Doomed(t, c)
  {
  }

  // A change of mode cannot bring a doomed row back: its new epoch is nobody's.
  lemma ModeFate(s: Store, op: Runs.Op, id: Id, now: int, now': int)
    requires op.SetMode? && Proper(s, op, now') && CtxOk(s.ctx) && id in s.rows && now <= now'
    ensures CtxOk(Runs.Next(s, op).ctx)
    ensures Follows(s.rows[id], Runs.Next(s, op).rows[id], s.ctx, Runs.Next(s, op).ctx, now, now')
  {
  }

  lemma QueueFate(s: Store, op: Runs.Op, id: Id, now: int, now': int)
    requires (op.Isolate? || op.Requeue? || op.Take?) && Runs.Enabled(s, op) && Proper(s, op, now')
    requires CtxOk(s.ctx) && id in s.rows && now <= now'
    ensures id in Runs.Next(s, op).rows && Runs.Next(s, op).ctx == s.ctx
    ensures Follows(s.rows[id], Runs.Next(s, op).rows[id], s.ctx, s.ctx, now, now')
  {
    if op.Requeue? { RequeueFate(s, op, id, now, now'); }
    else {
      DoomIgnoresTheClock(s.rows[id], s.ctx, op.now);
      if op.Take? && id in op.ids { assert Candidate(Quarantine(s, op.now), id, op.now, {}); }
      hide Outdated;
    }
  }

  lemma RequeueFate(s: Store, op: Runs.Op, id: Id, now: int, now': int)
    requires op.Requeue? && id in s.rows && now <= now'
    ensures id in Runs.Next(s, op).rows && Runs.Next(s, op).ctx == s.ctx
    ensures Follows(s.rows[id], Runs.Next(s, op).rows[id], s.ctx, s.ctx, now, now')
  {
  }

  // Rows of reminders are old ones and follow what they were.
  lemma WorkFate(s: Store, op: Runs.Op, id: Id, now: int, now': int)
    requires Runs.Enabled(s, op) && Proper(s, op, now') && CtxOk(s.ctx) && now <= now'
    requires id in Runs.Next(s, op).rows && Runs.Next(s, op).rows[id].taskType == OVERDUE
    ensures id in s.rows && CtxOk(Runs.Next(s, op).ctx)
    ensures Follows(s.rows[id], Runs.Next(s, op).rows[id], s.ctx, Runs.Next(s, op).ctx, now, now')
  {
    hide IsWinner, CreateUnfinished;
    if id !in s.rows { NewFate(s, op, id); }
    else if op.SetMode? { ModeFate(s, op, id, now, now'); }
    else if op.Isolate? || op.Requeue? || op.Take? { QueueFate(s, op, id, now, now'); }
    else if op.NewUnfinished? {
      Runs.RowFate(s, op, id);
      AdoptionFate(s, op.id, op.req, op.winner, id);
    }
  }

  // Adoption leaves number and origin of a row alone, and moves due times only in its class.
  lemma AdoptionFate(s: Store, newId: Id, req: Request, w: Option<Id>, id: Id)
    requires newId !in s.rows && IsWinner(s, req, w) && id in s.rows && s.rows[id].taskType == OVERDUE
    ensures var u := Runs.OrSame(CreateUnfinished(s, newId, req, w), s);
            && u.ctx == s.ctx && id in u.rows && Runs.SameOrigin(s.rows[id], u.rows[id])
            && SameReminder(s.rows[id], u.rows[id])
            && (u.rows[id].Unfinished() ==> u.rows[id].status == s.rows[id].status)
            && (req.taskType != OVERDUE || req.entity != s.rows[id].entity ==> u.rows[id].due == s.rows[id].due)
  {
    hide ArchiveClash, HistoryKey;
  }

  lemma NewFate(s: Store, op: Runs.Op, id: Id)
    requires id !in s.rows && id in Runs.Next(s, op).rows
    ensures (op.New? || op.NewUnfinished?) && op.id == id && Runs.Next(s, op).rows[id].taskType == op.req.taskType
  {
    hide IsWinner, ArchiveClash, HistoryKey, SameWork;
  }

  // All reminder rows of w' follow rows of w.
  ghost predicate AllFollow(w: World, w': World) {
    forall id :: id in w'.tasks.rows && w'.tasks.rows[id].taskType == OVERDUE ==>
      id in w.tasks.rows
      && Follows(w.tasks.rows[id], w'.tasks.rows[id], w.tasks.ctx, w'.tasks.ctx, w.clock, w'.clock)
  }

  lemma FollowersStayAlone(w: World, w': World)
    requires AllFollow(w, w') && OneReminder(w.tasks)
    ensures OneReminder(w'.tasks)
  {
    hide Live;
    forall i, j, e | i in w'.tasks.rows && j in w'.tasks.rows && IsReminder(w'.tasks.rows[i], e)
                     && IsReminder(w'.tasks.rows[j], e)
      ensures i == j
    {
      assert IsReminder(w.tasks.rows[i], e) && IsReminder(w.tasks.rows[j], e);
    }
  }

  lemma WorkKeepsInv(w: World, op: Runs.Op, now: int, p: Policy)
    requires Inv(w, p) && Enabled(w, Work(op, now), p)
    ensures Inv(Next(w, Work(op, now), p), p)
  {
    hide Runs.Next, Runs.Enabled, NoticeOk, TasksOk, AttemptsOk, LogOk, UniqueKeys, OneReminder, Follows, Proper;
    var w' := Next(w, Work(op, now), p);
    Runs.KeysStayUnique(w.tasks, op);
    CtxStaysOk(w.tasks, op);
    forall id | id in w'.tasks.rows && w'.tasks.rows[id].taskType == OVERDUE
      ensures id in w.tasks.rows
      ensures Follows(w.tasks.rows[id], w'.tasks.rows[id], w.tasks.ctx, w'.tasks.ctx, w.clock, w'.clock)
      ensures (w'.tasks.rows[id].entity, w'.tasks.rows[id].payload.record) in w'.seen
    {
      WorkFate(w.tasks, op, id, w.clock, now);
      FollowerIsSeen(w, id, w'.tasks.rows[id], w'.tasks.ctx, now);
    }
    FollowersStayAlone(w, w');
    forall d | d in w'.ops ensures OperationOk(w', d, p) { OperationWaits(w, w', d, p); }
  }

  lemma CtxStaysOk(s: Store, op: Runs.Op)
    requires CtxOk(s.ctx)
    ensures CtxOk(Runs.Next(s, op).ctx)
  {
    hide CreateUnfinished, KeyTaken, ArchiveClash;
    if op.NewUnfinished? { UnfinishedKeepsContext(s, op.id, op.req, op.winner); }
  }

  lemma UnfinishedKeepsContext(s: Store, newId: Id, req: Request, w: Option<Id>)
    ensures Runs.OrSame(CreateUnfinished(s, newId, req, w), s).ctx == s.ctx
  {
    hide ArchiveClash;
  }

  lemma FollowerIsSeen(w: World, id: Id, u: Task, c: Context, now: int)
    requires SeenOk(w) && id in w.tasks.rows && u.taskType == OVERDUE
    requires Follows(w.tasks.rows[id], u, w.tasks.ctx, c, w.clock, now)
    ensures (u.entity, u.payload.record) in w.seen
  {
  }

  // Nothing about the operation or its attempts changed, and its tasks follow old ones.
  lemma OperationWaits(w: World, w': World, d: Device, p: Policy)
    requires d in w.ops && d in w'.ops && w'.ops[d] == w.ops[d] && w.clock <= w'.clock
    requires |w.log| <= |w'.log| && w'.log[..|w.log|] == w.log
    requires forall i :: |w.log| <= i < |w'.log| ==> w'.log[i].device != d
    requires OperationOk(w, d, p)
    requires forall id :: id in w'.tasks.rows && w'.tasks.rows[id].taskType == OVERDUE
                          && w'.tasks.rows[id].entity == d ==>
               id in w.tasks.rows
               && Follows(w.tasks.rows[id], w'.tasks.rows[id], w.tasks.ctx, w'.tasks.ctx, w.clock, w'.clock)
    ensures OperationOk(w', d, p)
  {
    hide NoticeOk, TaskOk, Earliest, Doomed;
    var o, more := w.ops[d], w'.log[|w.log|..];
    assert w'.log == w.log + more;
    if o.open && o.CanBeKnown() {
      NoticeLater(o, d, w.log, more, w.clock, w'.clock, p);
      forall id | id in w'.tasks.rows && Live(w'.tasks.rows[id], d, w'.tasks.ctx)
                  && w'.tasks.rows[id].payload.record == o.record
        ensures TaskOk(w'.tasks.rows[id], o, d, w'.log, w'.clock, p)
      {
        TaskLater(w.tasks.rows[id], w'.tasks.rows[id], o, d, w.log, more, w.clock, w'.clock, p);
      }
    }
  }

  lemma RowsWait(w: World, w': World)
    requires w'.tasks == w.tasks && w.clock <= w'.clock
    ensures AllFollow(w, w')
  {
  }

  lemma ObserveKeepsInv(w: World, d: Device, obs: Observation, now: int, p: Policy)
    requires Inv(w, p) && Enabled(w, Observe(d, obs, now), p) && Harmless(w, d, obs, now, p)
    ensures Inv(Next(w, Observe(d, obs, now), p), p)
  {
    hide LogOk, UniqueKeys, OneReminder, Doomed, NoticeOk, TaskOk, AttemptsOk, Ready, Live, Saved, Fits;
    var w' := Next(w, Observe(d, obs, now), p);
    RowsWait(w, w');
    SavedIsAsked(w.ops, d, obs);
    forall e | e in w'.ops ensures OperationOk(w', e, p) {
      if e != d || w'.ops == w.ops { OperationWaits(w, w', e, p); }
      else if !Accepted(w.ops, d, obs) { RefreshIsOk(w, w', d, obs, p); }
      else { AcceptedIsOk(w, w', d, obs, p); }
    }
  }

  lemma SavedIsAsked(ops: map<Device, Operation>, d: Device, obs: Observation)
    ensures var o := Saved(ops, d, obs);
            && o.record == obs.record && o.observedFrom == obs.createdAt && o.open == obs.starts
            && (obs.starts ==> o.startedAt == obs.createdAt && o.status == None && o.Number() == 0)
  {
  }

  // A newly accepted operation: no attempt is its own yet, and old tasks fit.
  lemma AcceptedIsOk(w: World, w': World, d: Device, obs: Observation, p: Policy)
    requires Inv(w, p) && Accepted(w.ops, d, obs) && Harmless(w, d, obs, w'.clock, p) && w.clock <= w'.clock
    requires w' == w.(ops := w.ops[d := Saved(w.ops, d, obs)], clock := w'.clock, seen := w'.seen)
    ensures OperationOk(w', d, p)
  {
    var o := w'.ops[d];
    SavedIsAsked(w.ops, d, obs);
    if o.open && o.CanBeKnown() {
      assert AttemptsOk(o, d, w.log);
      hide Saved, Live, Accepted;
      forall id | id in w.tasks.rows && Live(w.tasks.rows[id], d, w.tasks.ctx)
                  && w.tasks.rows[id].payload.record == o.record
        ensures TaskOk(w.tasks.rows[id], o, d, w.log, w'.clock, p)
      {
        assert Fits(w.tasks.rows[id], obs, w'.clock, p);
      }
    }
  }

  lemma RefreshIsOk(w: World, w': World, d: Device, obs: Observation, p: Policy)
    requires d in w.ops && w.clock <= w'.clock
    requires w' == w.(ops := w.ops[d := Refreshed(w.ops[d], obs)], clock := w'.clock)
    requires OperationOk(w, d, p)
    ensures OperationOk(w', d, p)
  {
    var v := w.(clock := w'.clock);
    RowsWait(w, v);
    OperationWaits(w, v, d, p);
    hide Ready, Doomed;
  }

  // Arming creates at most one row, for the number that is now due.
  lemma GenerateKeepsInv(w: World, d: Device, now: int, id: Id, winner: Option<Id>, p: Policy)
    requires Inv(w, p) && Enabled(w, Generate(d, now, id, winner), p)
    ensures Inv(Next(w, Generate(d, now, id, winner), p), p)
  {
    hide LogOk, UniqueKeys, NoticeOk, TaskOk, AttemptsOk, Ready, Doomed, Generates;
    var w' := Next(w, Generate(d, now, id, winner), p);
    if Generates(w.ops, w.tasks, d, p, now) { ArmingKeepsInv(w, d, now, id, winner, p); }
    else {
      RowsWait(w, w');
      forall e | e in w'.ops ensures OperationOk(w', e, p) { OperationWaits(w, w', e, p); }
    }
  }

  // How a row after arming for device d came about.
  ghost predicate Armed(w: World, w': World, d: Device, n: nat, i: Id)
    requires i in w'.tasks.rows
  {
    var u := w'.tasks.rows[i];
    if i in w.tasks.rows then
      var t := w.tasks.rows[i];
      && t.entity == u.entity && t.taskType == u.taskType && SameReminder(t, u)
      && (u.Unfinished() ==> t.Unfinished()) && (Live(u, u.entity, w.tasks.ctx) ==> Live(t, t.entity, w.tasks.ctx))
      && (u.entity != d ==> Follows(t, u, w.tasks.ctx, w'.tasks.ctx, w.clock, w'.clock))
    else
      && u.entity == d && d in w.ops && u.payload.record == w.ops[d].record && u.payload.sequence == n
      && forall j :: j in w.tasks.rows ==> !IsReminder(w.tasks.rows[j], d)
  }

  lemma ArmingKeepsInv(w: World, d: Device, now: int, id: Id, winner: Option<Id>, p: Policy)
    requires Inv(w, p) && Enabled(w, Generate(d, now, id, winner), p) && Generates(w.ops, w.tasks, d, p, now)
    ensures Inv(Next(w, Generate(d, now, id, winner), p), p)
  {
    hide LogOk, UniqueKeys, NoticeOk, TaskOk, AttemptsOk, CreateUnfinished, Ready, Doomed, Live, Follows, IsWinner;
    var w' := Next(w, Generate(d, now, id, winner), p);
    var req := Arming(w.ops, d, p, now);
    Runs.KeysStayUnique(w.tasks, Runs.NewUnfinished(id, req, winner));
    UnfinishedKeepsContext(w.tasks, id, req, winner);
    forall i | i in w'.tasks.rows && w'.tasks.rows[i].taskType == OVERDUE
      ensures Armed(w, w', d, req.payload.sequence, i)
      ensures i !in w.tasks.rows ==> i == id
    {
      if i in w.tasks.rows {
        Runs.RowFate(w.tasks, Runs.NewUnfinished(id, req, winner), i);
        AdoptedIsArmed(w, w', d, now, id, req, winner, i);
      } else { CreatedIsAlone(w.tasks, id, req, winner, i); }
    }
    forall i, j, e | i in w'.tasks.rows && j in w'.tasks.rows && IsReminder(w'.tasks.rows[i], e)
                     && IsReminder(w'.tasks.rows[j], e)
      ensures i == j
    {
      assert Armed(w, w', d, req.payload.sequence, i) && Armed(w, w', d, req.payload.sequence, j);
      assert i in w.tasks.rows ==> IsReminder(w.tasks.rows[i], e);
      assert j in w.tasks.rows ==> IsReminder(w.tasks.rows[j], e);
    }
    forall i | i in w'.tasks.rows && w'.tasks.rows[i].taskType == OVERDUE
      ensures (w'.tasks.rows[i].entity, w'.tasks.rows[i].payload.record) in w'.seen
    {
      assert Armed(w, w', d, req.payload.sequence, i);
    }
    forall e | e in w'.ops ensures OperationOk(w', e, p) {
      if e != d { OthersWait(w, w', d, e, req.payload.sequence, p); }
      else { ArmedIsOk(w, w', d, req.payload.sequence, p); }
    }
  }

  lemma AdoptedIsArmed(
    w: World, w': World, d: Device, now: int, id: Id, req: Request, winner: Option<Id>, i: Id)
    requires id !in w.tasks.rows && IsWinner(w.tasks, req, winner) && req.taskType == OVERDUE && req.entity == d
    requires i in w.tasks.rows && w.tasks.rows[i].taskType == OVERDUE && w.clock <= now
    requires w' == w.(tasks := Runs.OrSame(CreateUnfinished(w.tasks, id, req, winner), w.tasks), clock := now)
    ensures i in w'.tasks.rows && Armed(w, w', d, req.payload.sequence, i)
  {
    AdoptionFate(w.tasks, id, req, winner, i);
    hide CreateUnfinished, IsWinner;
  }

  lemma CreatedIsAlone(s: Store, id: Id, req: Request, w: Option<Id>, i: Id)
    requires req.taskType == OVERDUE && IsWinner(s, req, w) && i !in s.rows
    requires i in Runs.OrSame(CreateUnfinished(s, id, req, w), s).rows
    ensures var u := Runs.OrSame(CreateUnfinished(s, id, req, w), s);
            w.None? && i == id && u.rows[i].entity == req.entity && u.rows[i].payload == req.payload
    ensures forall j :: j in s.rows ==> !IsReminder(s.rows[j], req.entity)
  {
    hide ArchiveClash, HistoryKey;
    forall j | j in s.rows ensures !IsReminder(s.rows[j], req.entity) { assert !SameWork(s.rows[j], req); }
  }

  lemma OthersWait(w: World, w': World, d: Device, e: Device, n: nat, p: Policy)
    requires w' == w.(tasks := w'.tasks, clock := w'.clock) && w.clock <= w'.clock && e in w.ops && e != d
    requires OperationOk(w, e, p)
    requires forall i :: i in w'.tasks.rows && w'.tasks.rows[i].taskType == OVERDUE ==> Armed(w, w', d, n, i)
    ensures OperationOk(w', e, p)
  {
    hide OperationOk, Live, Follows;
    forall id | id in w'.tasks.rows && w'.tasks.rows[id].taskType == OVERDUE && w'.tasks.rows[id].entity == e
      ensures id in w.tasks.rows
      ensures Follows(w.tasks.rows[id], w'.tasks.rows[id], w.tasks.ctx, w'.tasks.ctx, w.clock, w'.clock)
    {
      assert Armed(w, w', d, n, id);
    }
    OperationWaits(w, w', e, p);
  }

  lemma ArmedIsOk(w: World, w': World, d: Device, n: nat, p: Policy)
    requires d in w.ops && w.ops[d].open && w' == w.(tasks := w'.tasks, clock := w'.clock) && w.clock <= w'.clock
    requires w'.tasks.ctx == w.tasks.ctx && OperationOk(w, d, p) && Generates(w.ops, w.tasks, d, p, w'.clock)
    requires n == NextReminder(w.ops[d], p, w'.clock).value.0
    requires forall i :: i in w'.tasks.rows && w'.tasks.rows[i].taskType == OVERDUE ==> Armed(w, w', d, n, i)
    ensures OperationOk(w', d, p)
  {
    hide NoticeOk, AttemptsOk, Follows, Ready, Doomed;
    var o := w.ops[d];
    if o.CanBeKnown() {
      NoticeLater(o, d, w.log, [], w.clock, w'.clock, p);
      assert w.log + [] == w.log;
      forall i | i in w'.tasks.rows && Live(w'.tasks.rows[i], d, w'.tasks.ctx)
                 && w'.tasks.rows[i].payload.record == o.record
        ensures TaskOk(w'.tasks.rows[i], o, d, w.log, w'.clock, p)
      {
        assert Armed(w, w', d, n, i);
        assert i in w.tasks.rows ==> TaskOk(w.tasks.rows[i], o, d, w.log, w.clock, p);
        DueIsReady(o, d, w.log, w'.clock, p, w'.tasks.rows[i]);
      }
    }
  }

  // When the generator finds the operation due, its current and next numbers may go out.
  lemma DueIsReady(o: Operation, d: Device, log: seq<Attempt>, now: int, p: Policy, t: Task)
    requires NoticeOk(o, d, log, now, p)
    requires NextReminder(o, p, now).Some? && NextReminder(o, p, now).value.1 <= now
    requires t.payload.sequence in {o.Number(), NextReminder(o, p, now).value.0}
    ensures TaskOk(t, o, d, log, now, p)
  {
    if o.status == Some(Sent) {
      var j :| 0 <= j < |log| && log[j] == Attempt(d, o.record, o.startedAt, o.Number(), o.at.value, true);
      assert Precedes(log[j], d, o.record, o.startedAt, o.Number() + 1, now, p);
    }
    ReadyLater(log, [], d, o.record, o.startedAt, t.payload.sequence, now, Earliest(t, now), p);
    assert log + [] == log;
  }

  // The handler moves the number by at most one, and only when the task may go out.
  lemma HandleKeepsInv(w: World, id: Id, now: int, reply: Reply, p: Policy)
    requires Inv(w, p) && Enabled(w, Handle(id, now, reply), p)
    ensures Inv(Next(w, Handle(id, now, reply), p), p)
  {
    hide LogOk, UniqueKeys, OneReminder, SeenOk, NoticeOk, TaskOk, AttemptsOk, Ready, Handled, Doomed, TasksOk;
    var w' := Next(w, Handle(id, now, reply), p);
    var t := w.tasks.rows[id];
    HandlingKeepsTasks(w, id, now, reply);
    HandlingWrites(w, id, now, reply);
    SameRowsAreUnique(w.tasks, w'.tasks, now);
    HandlingSeesNothingNew(w, id, now, reply);
    SameRowsFollow(w, w');
    if StillOpen(w.ops, t.entity, t.payload.record) && w.ops[t.entity].CanBeKnown() {
      RunningIsReady(w, id, now, p);
      LogGrows(w, id, now, reply, p);
      HandledIsOk(w, id, now, reply, p);
    }
    forall e | e in w'.ops ensures OperationOk(w', e, p) {
      if e != t.entity || !StillOpen(w.ops, t.entity, t.payload.record) { OperationWaits(w, w', e, p); }
    }
  }

  lemma RunningIsReady(w: World, id: Id, now: int, p: Policy)
    requires Inv(w, p) && Enabled(w, Handle(id, now, Delivered), p)
    requires StillOpen(w.ops, w.tasks.rows[id].entity, w.tasks.rows[id].payload.record)
    requires w.ops[w.tasks.rows[id].entity].CanBeKnown()
    ensures var d := w.tasks.rows[id].entity;
            && NoticeOk(w.ops[d], d, w.log, now, p) && AttemptsOk(w.ops[d], d, w.log)
            && TaskOk(w.tasks.rows[id], w.ops[d], d, w.log, now, p)
  {
    hide LogOk, UniqueKeys, OneReminder, SeenOk, NoticeOk, TaskOk, AttemptsOk, Ready;
    var t := w.tasks.rows[id];
    assert Live(t, t.entity, w.tasks.ctx);
    NoticeLater(w.ops[t.entity], t.entity, w.log, [], w.clock, now, p);
    TaskLater(t, t, w.ops[t.entity], t.entity, w.log, [], w.clock, now, p);
    assert w.log + [] == w.log;
  }

  lemma SameRowsFollow(w: World, w': World)
    requires w'.tasks.rows.Keys == w.tasks.rows.Keys && w'.tasks.ctx == w.tasks.ctx && w.clock <= w'.clock
    requires forall i :: i in w.tasks.rows && w.tasks.rows[i].taskType == OVERDUE ==>
               SameRow(w.tasks.rows[i], w'.tasks.rows[i], w'.clock)
    requires forall i :: i in w.tasks.rows ==> w'.tasks.rows[i].taskType == w.tasks.rows[i].taskType
    ensures AllFollow(w, w')
  {
  }

  lemma HandlingKeepsTasks(w: World, id: Id, now: int, reply: Reply)
    requires id in w.tasks.rows && w.tasks.rows[id].taskType == OVERDUE && w.tasks.rows[id].status == Running
    ensures Handled(w, id, now, reply).tasks.rows.Keys == w.tasks.rows.Keys
    ensures Handled(w, id, now, reply).tasks.ctx == w.tasks.ctx
    ensures forall i :: i in w.tasks.rows ==> SameRow(w.tasks.rows[i], Handled(w, id, now, reply).tasks.rows[i], now)
  {
    BackoffIsPositive(w.tasks.rows[id].payload.retry + 1);
    hide Backoff;
  }

  lemma BackoffIsPositive(retry: nat)
    ensures Backoff(retry) > 0
  {
    PowersArePositive(Min(retry - 1, 7));
  }

  lemma {:induction false} PowersArePositive(n: int)
    ensures Power2(n) > 0
  {
    if n > 0 { PowersArePositive(n - 1); }
  }

  // What one handling writes to the operation row and asks of the messenger.
  lemma HandlingWrites(w: World, id: Id, now: int, reply: Reply)
    requires id in w.tasks.rows
    ensures var t, u := w.tasks.rows[id], Handled(w, id, now, reply);
            && u.seen == w.seen && u.clock == w.clock && u.ops.Keys == w.ops.Keys
            && (forall e :: e in w.ops && e != t.entity ==> u.ops[e] == w.ops[e])
            && |w.log| <= |u.log| && u.log[..|w.log|] == w.log
            && (forall i :: |w.log| <= i < |u.log| ==> u.log[i].device == t.entity)
            && (!StillOpen(w.ops, t.entity, t.payload.record) ==> u == w)
            && (StillOpen(w.ops, t.entity, t.payload.record) ==>
                  HandlingOf(w.ops[t.entity], u.ops[t.entity], t, w.log, u.log, now))
  {
    hide Reschedule, Backoff;
  }

  predicate HandlingOf(o: Operation, o': Operation, t: Task, log: seq<Attempt>, log': seq<Attempt>, now: int) {
    var tried := (ok: bool) => log + [Attempt(t.entity, o.record, o.startedAt, t.payload.sequence, now, ok)];
    if !o.Known() then o' == o.Noted(SkippedNoInitiator, now, t.payload.sequence) && log' == log
    else
      || (o' == o.Noted(NoticePending, now, t.payload.sequence) && log' == log)
      || (o' == o.Noted(NoticePending, now, t.payload.sequence) && log' == tried(false))
      || (o' == o.Noted(FailedFinal, now, t.payload.sequence) && log' == tried(false))
      || (o' == o.Noted(Sent, now, t.payload.sequence) && log' == tried(true))
  }

  lemma SameRowsAreUnique(s: Store, u: Store, now: int)
    requires s.rows.Keys == u.rows.Keys && forall i :: i in s.rows ==> SameRow(s.rows[i], u.rows[i], now)
    requires UniqueKeys(s) && OneReminder(s)
    ensures UniqueKeys(u) && OneReminder(u)
  {
    forall i, j, e | i in u.rows && j in u.rows && IsReminder(u.rows[i], e) && IsReminder(u.rows[j], e) ensures i == j {
      assert IsReminder(s.rows[i], e) && IsReminder(s.rows[j], e);
    }
  }

  // The same row, possibly parked until later.
  predicate SameRow(t: Task, u: Task, now: int) {
    && SameReminder(t, u) && Runs.SameOrigin(t, u) && t.key == u.key
    && ((t.status == u.status && t.due == u.due) || (t.status == Running && u.status == Pending && now <= u.due))
  }

  lemma LogGrows(w: World, id: Id, now: int, reply: Reply, p: Policy)
    requires id in w.tasks.rows && LogOk(w.log, p) && w.tasks.rows[id].status == Running
    requires StillOpen(w.ops, w.tasks.rows[id].entity, w.tasks.rows[id].payload.record)
    requires AttemptsOk(w.ops[w.tasks.rows[id].entity], w.tasks.rows[id].entity, w.log)
    requires TaskOk(w.tasks.rows[id], w.ops[w.tasks.rows[id].entity], w.tasks.rows[id].entity, w.log, now, p)
    ensures LogOk(Handled(w, id, now, reply).log, p)
  {
    hide Ready, Handled;
    HandlingWrites(w, id, now, reply);
    var log := Handled(w, id, now, reply).log;
    if log != w.log {
      assert log[..|w.log|] == w.log;
      forall i | 0 <= i < |log|
        ensures Ready(log[..i], log[i].device, log[i].record, log[i].startedAt, log[i].sequence, log[i].at, p)
      {
        if i < |w.log| { assert log[..i] == w.log[..i]; }
      }
    }
  }

  // Every attempt of a handling is for the operation it found open.
  lemma NewAttemptIsItsOwn(w: World, id: Id, now: int, reply: Reply)
    requires id in w.tasks.rows
    requires StillOpen(w.ops, w.tasks.rows[id].entity, w.tasks.rows[id].payload.record)
    ensures var d, u := w.tasks.rows[id].entity, Handled(w, id, now, reply);
            && d in u.ops && u.ops[d].observedFrom == w.ops[d].observedFrom && u.ops[d].record == w.ops[d].record
            && forall i :: |w.log| <= i < |u.log| ==>
                 u.log[i].device == d && u.log[i].startedAt == w.ops[d].startedAt
  {
    hide Reschedule, Backoff;
  }

  lemma HandlingSeesNothingNew(w: World, id: Id, now: int, reply: Reply)
    requires SeenOk(w) && id in w.tasks.rows && w.tasks.rows[id].taskType == OVERDUE
    requires w.tasks.rows[id].status == Running
    requires StillOpen(w.ops, w.tasks.rows[id].entity, w.tasks.rows[id].payload.record) ==>
               w.ops[w.tasks.rows[id].entity].startedAt <= w.ops[w.tasks.rows[id].entity].observedFrom
    ensures SeenOk(Handled(w, id, now, reply).(clock := now))
  {
    hide Handled, HandlingOf;
    HandlingKeepsTasks(w, id, now, reply);
    HandlingWrites(w, id, now, reply);
    if StillOpen(w.ops, w.tasks.rows[id].entity, w.tasks.rows[id].payload.record) {
      NewAttemptIsItsOwn(w, id, now, reply);
    }
    var u := Handled(w, id, now, reply).(clock := now);
    forall i | i in u.tasks.rows && u.tasks.rows[i].taskType == OVERDUE
      ensures (u.tasks.rows[i].entity, u.tasks.rows[i].payload.record) in u.seen
    {
      assert SameRow(w.tasks.rows[i], u.tasks.rows[i], now);
    }
  }

  // The handled operation itself.
  lemma HandledIsOk(w: World, id: Id, now: int, reply: Reply, p: Policy)
    requires Inv(w, p) && Enabled(w, Handle(id, now, reply), p)
    requires StillOpen(w.ops, w.tasks.rows[id].entity, w.tasks.rows[id].payload.record)
    requires w.ops[w.tasks.rows[id].entity].CanBeKnown()
    ensures OperationOk(Next(w, Handle(id, now, reply), p), w.tasks.rows[id].entity, p)
  {
    RunningIsReady(w, id, now, p);
    hide LogOk, UniqueKeys, Ready, Handled, HandlingOf, NoticeOk, AttemptsOk, TaskOk, Doomed, SeenOk, TasksOk;
    var t := w.tasks.rows[id];
    HandlingWrites(w, id, now, reply);
    var d, w' := t.entity, Next(w, Handle(id, now, reply), p);
    var o, o' := w.ops[d], w'.ops[d];
    HandlingKeepsTasks(w, id, now, reply);
    HandledRow(o, o', t, w.log, w'.log, now, p);
    OnlyItsTask(w, w', id, o', now, p);
  }

  lemma OnlyItsTask(w: World, w': World, id: Id, o': Operation, now: int, p: Policy)
    requires id in w.tasks.rows && OneReminder(w.tasks) && w'.clock == now
    requires w.tasks.rows[id].taskType == OVERDUE && w.tasks.rows[id].status == Running
    requires w'.tasks.rows.Keys == w.tasks.rows.Keys
    requires forall i :: i in w.tasks.rows ==> SameRow(w.tasks.rows[i], w'.tasks.rows[i], now)
    requires TaskOk(w.tasks.rows[id], o', w.tasks.rows[id].entity, w'.log, now, p)
    ensures TasksOk(w'.tasks, o', w.tasks.rows[id].entity, w'.log, w'.clock, p)
  {
    hide TaskOk, Doomed;
    var t := w.tasks.rows[id];
    forall i | i in w'.tasks.rows && Live(w'.tasks.rows[i], t.entity, w'.tasks.ctx)
               && w'.tasks.rows[i].payload.record == o'.record
      ensures TaskOk(w'.tasks.rows[i], o', t.entity, w'.log, w'.clock, p)
    {
      assert SameRow(w.tasks.rows[i], w'.tasks.rows[i], now);
      assert IsReminder(w.tasks.rows[i], t.entity) && IsReminder(t, t.entity);
      assert i == id;
      TaskLater(t, w'.tasks.rows[i], o', t.entity, w'.log, [], now, now, p);
      assert w'.log + [] == w'.log;
    }
  }

  lemma HandledRow(
    o: Operation, o': Operation, t: Task, log: seq<Attempt>, log': seq<Attempt>, now: int, p: Policy)
    requires HandlingOf(o, o', t, log, log', now) && o.open && t.status == Running && o.startedAt == o.observedFrom
    requires NoticeOk(o, t.entity, log, now, p) && AttemptsOk(o, t.entity, log)
    requires TaskOk(t, o, t.entity, log, now, p)
    ensures o'.record == o.record && o'.open && o'.startedAt == o'.observedFrom
    ensures o'.CanBeKnown() <==> o.CanBeKnown()
    ensures NoticeOk(o', t.entity, log', now, p) && AttemptsOk(o', t.entity, log')
    ensures TaskOk(t, o', t.entity, log', now, p)
  {
    hide Ready;
    var n := t.payload.sequence;
    ReadyLater(log, log'[|log|..], t.entity, o.record, o.startedAt, n, now, now, p);
    assert log + log'[|log|..] == log';
    assert o'.Number() == n;
    if o'.status == Some(Sent) {
      assert log'[|log|] == Attempt(t.entity, o.record, o.startedAt, n, now, true);
      ReadyMeansDue(log, t.entity, o.record, o.startedAt, n, now, p);
    }
  }

  lemma ReadyMeansDue(log: seq<Attempt>, d: Device, record: Record, startedAt: int, n: nat, at: int, p: Policy)
    requires Ready(log, d, record, startedAt, n, at, p)
    ensures Deadline(startedAt, n, p) <= at
  {
  }

  // ------------------------------------------------------- whole runs

  lemma StepKeepsInv(w: World, st: Step, p: Policy)
    requires Inv(w, p) && Enabled(w, st, p) && HarmlessStep(w, st, p)
    ensures Inv(Next(w, st, p), p)
  {
    EnabledHasRow(w, st, p);
    hide Inv, Next, Enabled, Harmless;
    match st
    case Observe(d, obs, now) => ObserveKeepsInv(w, d, obs, now, p);
    case Generate(d, now, id, winner) => GenerateKeepsInv(w, d, now, id, winner, p);
    case Handle(id, now, reply) => HandleKeepsInv(w, id, now, reply, p);
    case Work(op, now) => WorkKeepsInv(w, op, now, p);
  }

  lemma EnabledHasRow(w: World, st: Step, p: Policy)
    requires Enabled(w, st, p)
    ensures st.Handle? ==> st.task in w.tasks.rows
  {
  }

  ghost predicate Runnable(w: World, steps: seq<Step>, p: Policy)
    decreases |steps|
  {
    steps == [] || (Enabled(w, steps[0], p) && Runnable(Next(w, steps[0], p), steps[1..], p))
  }

  ghost function After(w: World, steps: seq<Step>, p: Policy): World
    requires Runnable(w, steps, p)
    decreases |steps|
  {
    if steps == [] then w else After(Next(w, steps[0], p), steps[1..], p)
  }

  // Every acceptance on the way is harmless.
  ghost predicate Careful(w: World, steps: seq<Step>, p: Policy)
    requires Runnable(w, steps, p)
    decreases |steps|
  {
    steps == [] || (HarmlessStep(w, steps[0], p) && Careful(Next(w, steps[0], p), steps[1..], p))
  }

  lemma {:induction false} RunKeepsInv(w: World, steps: seq<Step>, p: Policy)
    requires Inv(w, p) && Runnable(w, steps, p) && Careful(w, steps, p)
    ensures Inv(After(w, steps, p), p)
    decreases |steps|
  {
    hide Inv, Next, Enabled, HarmlessStep;
    if steps != [] {
      EnabledHasRow(w, steps[0], p);
      StepKeepsInv(w, steps[0], p);
      RunKeepsInv(Next(w, steps[0], p), steps[1..], p);
    }
  }

  lemma {:induction false} RunOneMore(w: World, steps: seq<Step>, st: Step, p: Policy)
    requires Runnable(w, steps, p) && Enabled(After(w, steps, p), st, p)
    ensures Runnable(w, steps + [st], p)
    ensures st.Handle? ==> st.task in After(w, steps, p).tasks.rows
    ensures After(w, steps + [st], p) == Next(After(w, steps, p), st, p)
    decreases |steps|
  {
    hide Next, Enabled;
    EnabledHasRow(After(w, steps, p), st, p);
    if steps == [] {
      assert (steps + [st])[1..] == [];
    } else {
      EnabledHasRow(w, steps[0], p);
      RunOneMore(Next(w, steps[0], p), steps[1..], st, p);
      assert (steps + [st])[1..] == steps[1..] + [st];
    }
  }

  // ------------------------------------------------------- the runtime

  // The device has an unfinished reminder row that carries the key of number n and
  // waits for nothing; if it had none before, the row is new and for that number.
  ghost predicate ReminderStands(s: Store, u: Store, d: Device, record: Record, n: nat, id: Id, now: int) {
    && (exists i :: i in u.rows && StandsFor(u.rows[i], d, ReminderKey(d, record, n), now))
    && ((forall i :: i in s.rows ==> !IsReminder(s.rows[i], d)) ==>
          && id in u.rows && StandsFor(u.rows[id], d, ReminderKey(d, record, n), now)
          && u.rows[id].status == Pending && u.rows[id].due == now && u.rows[id].payload == Payload(None, record, n, 0))
  }

  lemma KeysHaveText(d: Device, record: Record, n: nat)
    ensures ReminderKey(d, record, n) != ""
  {
  }

  // The store takes no reminder for the device: it has no name, or the key of one
  // cannot be archived.
  ghost predicate Refused(s: Store, d: Device, record: Record) {
    d == "" || exists n, w :: HistoryInUse(s, ReminderKey(d, record, n), w)
  }

  predicate StandsFor(t: Task, d: Device, key: string, now: int) {
    && t.taskType == "NOTIFY_OPERATION_OVERDUE" && t.entity == d && t.key == Some(key)
    && (t.status == Running || (t.status == Pending && t.due <= now))
  }

  lemma ArmedRowStands(s: Store, id: Id, d: Device, o: Operation, n: nat, now: int, w: Option<Id>)
    requires id !in s.rows && IsWinner(s, ReminderRequest(d, o, n, now), w)
    requires CreateUnfinished(s, id, ReminderRequest(d, o, n, now), w).Ok?
    ensures ReminderStands(s, CreateUnfinished(s, id, ReminderRequest(d, o, n, now), w).value, d, o.record, n, id, now)
  {
    var req := ReminderRequest(d, o, n, now);
    var u := CreateUnfinished(s, id, req, w).value;
    hide IsWinner, CreateUnfinished, ReminderKey;
    WinnerInColumns(s, req, w);
    match w
    case None =>
      CreationInColumns(s, id, req);
      assert StandsFor(u.rows[id], d, req.key, now);
    case Some(x) =>
      AdoptionInColumns(s, id, req, x, x);
      assert StandsFor(u.rows[x], d, req.key, now);
      assert IsReminder(s.rows[x], d);
  }

  /** The waiting times between retries: half a minute, doubled each time, up to an hour. */
  lemma BackoffDoublesToAnHour(retry: nat)
    ensures Backoff(1) == 30 && (retry >= 8 ==> Backoff(retry) == 3600)
    ensures 1 <= retry < 7 ==> Backoff(retry + 1) == 2 * Backoff(retry)
  {
    assert Power2(7) == 128;
    PowersRise(Min(retry - 1, 7), 7);
    if 1 <= retry < 7 { assert Power2(6) == 64; PowersRise(retry, 6); }
  }

  lemma {:induction false} PowersRise(m: int, n: int)
    requires m <= n
    ensures Power2(m) <= Power2(n)
    decreases n - m
  {
    PowersArePositive(n - 1);
    if m < n { PowersRise(m, n - 1); }
  }

  class ReminderRuntime {
    const operations: OperationRepository
    const tasks: TaskRepository
    var log: seq<Attempt>

    constructor (operations: OperationRepository, tasks: TaskRepository)
      ensures this.operations == operations && this.tasks == tasks && log == []
    {
      this.operations, this.tasks, log := operations, tasks, [];
    }

    ghost function Current(seen: set<(Device, Record)>, clock: int): World
      reads this, operations, tasks
    {
      World(operations.rows, tasks.store, log, seen, clock)
    }

    /** One pass of the generator: a run of arming steps, one for every open
        operation in scope unless the store refuses one of them. */
    method EnsureOverdueTasks(now: int, p: Policy, ready: bool, scope: set<Device>, firstId: Id,
                              ghost seen: set<(Device, Record)>, ghost clock: int)
      returns (completed: bool, ghost steps: seq<Step>)
      requires UniqueKeys(tasks.store) && (forall i :: i in tasks.store.rows ==> i < firstId) && clock <= now
      modifies tasks
      ensures Runnable(old(Current(seen, clock)), steps, p)
      ensures Current(seen, if steps == [] then clock else now) == After(old(Current(seen, clock)), steps, p)
      ensures forall k :: 0 <= k < |steps| ==> steps[k].Generate? && steps[k].d in scope
      ensures !completed ==>
                exists d :: d in scope && d in operations.rows && operations.rows[d].open
                            && Refused(tasks.store, d, operations.rows[d].record)
      ensures completed && ready && p.overdueAfter > 0 ==>
                forall d :: d in scope && d in operations.rows && operations.rows[d].open ==> Visits(steps, d)
    {
      hide ReminderStands, ReminderKey, Next, Enabled, UniqueKeys, Refused;
      steps := [];
      completed := true;
      if !ready || p.overdueAfter <= 0 { return; }
      var todo := set d | d in operations.rows && operations.rows[d].open;
      var id := firstId;
      while todo != {}
        invariant UniqueKeys(tasks.store) && forall i :: i in tasks.store.rows ==> i < id
        invariant Runnable(old(Current(seen, clock)), steps, p)
        invariant Current(seen, if steps == [] then clock else now) == After(old(Current(seen, clock)), steps, p)
        invariant forall k :: 0 <= k < |steps| ==> steps[k].Generate? && steps[k].d in scope
        invariant forall d :: d in scope && d in operations.rows && operations.rows[d].open ==>
                    d in todo || Visits(steps, d)
        decreases todo
      {
        var d :| d in todo;
        todo := todo - {d};
        if d in scope {
          ghost var w, before := After(old(Current(seen, clock)), steps, p), steps;
          var armed, step := Arm(d, now, p, id, seen, w.clock);
          RunOneMore(old(Current(seen, clock)), steps, step, p);
          steps := steps + [step];
          VisitsGrow(before, step, now);
          if !armed { return false, steps; }
          id := id + 1;
        }
      }
    }

    // One operation's turn of the generator.
    method Arm(d: Device, now: int, p: Policy, id: Id, ghost seen: set<(Device, Record)>, ghost clock: int)
      returns (ok: bool, ghost step: Step)
      requires d in operations.rows && operations.rows[d].open && p.overdueAfter > 0 && clock <= now
      requires UniqueKeys(tasks.store) && id !in tasks.store.rows
      modifies tasks
      ensures step.Generate? && step.d == d && step.now == now && Enabled(old(Current(seen, clock)), step, p)
      ensures Current(seen, now) == Next(old(Current(seen, clock)), step, p)
      ensures UniqueKeys(tasks.store) && forall i :: i in tasks.store.rows ==> i in old(tasks.store.rows) || i == id
      ensures !ok ==> tasks.store == old(tasks.store) && Refused(tasks.store, d, operations.rows[d].record)
      ensures var o, n := operations.rows[d], operations.rows[d].sequence.GetOr(0);
              && (o.status in {Some(SkippedNoInitiator), Some(FailedFinal)} ==> ok && tasks.store == old(tasks.store))
              && (o.status == Some(NoticePending) ==>
                    if exists i :: i in old(tasks.store).rows
                                   && old(tasks.store).rows[i].key == Some(ReminderKey(d, o.record, n))
                                   && old(tasks.store).rows[i].Unfinished()
                    then ok && tasks.store == old(tasks.store)
                    else ok ==> ReminderStands(old(tasks.store), tasks.store, d, o.record, n, id, now))
              && (o.status == Some(Sent) ==>
                    if now < (if o.at.Some? then o.at.value + p.repeatEvery else o.startedAt + p.overdueAfter)
                    then ok && tasks.store == old(tasks.store)
                    else ok ==>
                           ReminderStands(old(tasks.store), tasks.store, d, o.record, n + 1, id, now))
              && (o.status in {None, Some(RetryExhausted)} ==>
                    if now < o.startedAt + p.overdueAfter then ok && tasks.store == old(tasks.store)
                    else ok ==> ReminderStands(old(tasks.store), tasks.store, d, o.record, 0, id, now))
    {
      hide ReminderStands;
      hide ArchiveClash, IsWinner, CreateUnfinished, ReminderKey;
      var o := operations.rows[d];
      ok, step := true, Generate(d, now, id, None);
      var next := NextReminder(o, p, now);
      if next.None? { return; }
      var req := ReminderRequest(d, o, next.value.0, now);
      if o.status == Some(NoticePending) {
        var waiting := HasUnfinished(req.key);
        if waiting { return; }
      }
      if now < next.value.1 { return; }
      ghost var s0 := tasks.store;
      var r, w := tasks.CreateOrGetUnfinished(id, req);
      step := Generate(d, now, id, w);
      Runs.KeysStayUnique(s0, Runs.NewUnfinished(id, req, w));
      NoOtherRow(s0, id, req, w);
      ok := r.Ok?;
      KeysHaveText(d, o.record, next.value.0);
      if !ok && d != "" {
        assert HistoryInUse(s0, ReminderKey(d, o.record, next.value.0), w);
      }
      if ok { ArmedRowStands(s0, id, d, o, next.value.0, now, w); }
    }

    method HasUnfinished(key: string) returns (found: bool)
      ensures found <==> UnfinishedKey(tasks.store, key)
    {
      var todo := tasks.store.rows.Keys;
      while todo != {}
        invariant todo <= tasks.store.rows.Keys
        invariant forall i :: i in tasks.store.rows && i !in todo ==>
                    !(tasks.store.rows[i].key == Some(key) && tasks.store.rows[i].Unfinished())
        decreases todo
      {
        var i :| i in todo;
        if tasks.store.rows[i].key == Some(key) && tasks.store.rows[i].Unfinished() { return true; }
        todo := todo - {i};
      }
      found := false;
    }

    /** One execution of the reminder task `id`, with any reply and any crash. */
    method HandleOverdueNotification(id: Id, now: int, reply: Reply)
      requires id in tasks.store.rows
      modifies operations, tasks, this
      ensures forall seen, clock ::
                var w := old(World(operations.rows, tasks.store, log, seen, clock));
                Current(seen, clock) == Handled(w, id, now, reply)
      ensures var t := old(tasks.store).rows[id];
              var d, record, n := t.entity, t.payload.record, t.payload.sequence;
              if d !in old(operations.rows) || !old(operations.rows)[d].open || old(operations.rows)[d].record != record
              then operations.rows == old(operations.rows) && tasks.store == old(tasks.store) && log == old(log)
              else
                var o := old(operations.rows)[d];
                var unknown := o.initiator.GetOr("") == "" || o.initiatorType.GetOr("") == "";
                && d in operations.rows
                && operations.rows[d] == o.(status := operations.rows[d].status, at := operations.rows[d].at,
                                            sequence := Some(n))
                && (unknown ==> operations.rows[d].status == Some(SkippedNoInitiator))
                && (!unknown ==>
                      operations.rows[d].status == Some(if reply == Delivered then Sent
                                                        else if reply == Rejected then FailedFinal else NoticePending))
                && operations.rows[d].at == (if !unknown && reply == Delivered then Some(now) else o.at)
                && log == (if unknown || reply == CrashBeforeSend then old(log)
                           else old(log) + [Attempt(d, record, o.startedAt, n, now, reply == Delivered)])
                && (unknown || reply != Retryable ==> tasks.store == old(tasks.store))
                && (!unknown && reply == Retryable && t.status == Running && t.worker.Some? ==>
                      && id in tasks.store.rows && tasks.store.rows[id].status == Pending
                      && tasks.store.rows[id].payload == t.payload.(retry := t.payload.retry + 1)
                      && tasks.store.rows[id].due == now + Backoff(t.payload.retry + 1))
    {
      var task := tasks.store.rows[id];
      var d, record, n := task.entity, task.payload.record, task.payload.sequence;
      if d !in operations.rows || !operations.rows[d].open || operations.rows[d].record != record { return; }
      var o := operations.rows[d];
      if o.initiator.GetOr("") == "" || o.initiatorType.GetOr("") == "" {
        var _ := operations.UpdateOverdueNotification(d, record, SkippedNoInitiator, now, n);
        return;
      }
      var _ := operations.UpdateOverdueNotification(d, record, NoticePending, now, n);
      if reply == CrashBeforeSend { return; }
      log := log + [Attempt(d, record, o.startedAt, n, now, reply == Delivered)];
      match reply {
        case Delivered => var _ := operations.UpdateOverdueNotification(d, record, Sent, now, n);
        case Rejected => var _ := operations.UpdateOverdueNotification(d, record, FailedFinal, now, n);
        case Retryable =>
          var _ := tasks.RescheduleRunning(id, task.worker, now + Backoff(task.payload.retry + 1), now, RetryOf(task));
        case _ =>
      }
    }
  }

  predicate Visits(steps: seq<Step>, d: Device) {
    exists k :: 0 <= k < |steps| && steps[k].Generate? && steps[k].d == d
  }

  lemma VisitsGrow(steps: seq<Step>, st: Step, now: int)
    requires st.Generate?
    ensures Visits(steps + [st], st.d)
    ensures forall d :: Visits(steps, d) ==> Visits(steps + [st], d)
  {
    assert (steps + [st])[|steps|] == st;
    forall d | Visits(steps, d) ensures Visits(steps + [st], d) {
      var k :| 0 <= k < |steps| && steps[k].Generate? && steps[k].d == d;
      assert (steps + [st])[k].d == d && (steps + [st])[k].Generate?;
    }
  }

  lemma NoOtherRow(s: Store, id: Id, req: Request, w: Option<Id>)
    ensures forall i :: i in Runs.OrSame(CreateUnfinished(s, id, req, w), s).rows ==> i in s.rows || i == id
  {
    hide ArchiveClash;
  }

  const NOTHING := World(map[], Store(map[], Unknown), [], {}, 0)

  lemma {:induction false} DeadlineIsLinear(startedAt: int, n: nat, p: Policy)
    ensures Deadline(startedAt, n, p) == startedAt + p.overdueAfter + n * p.repeatEvery
  {
    if n > 0 { DeadlineIsLinear(startedAt, n - 1, p); }
  }

  lemma Predecessor(log: seq<Attempt>, i: nat, p: Policy) returns (j: nat)
    requires LogOk(log, p) && i < |log| && log[i].sequence > 0
    ensures j < i && SameOperation(log[j], log[i]) && log[j].sequence == log[i].sequence - 1 && log[j].recorded
    ensures log[j].at + p.repeatEvery <= log[i].at
  {
    hide Deadline;
    var a := log[i];
    assert Ready(log[..i], a.device, a.record, a.startedAt, a.sequence, a.at, p);
    j :| 0 <= j < i && Precedes(log[..i][j], a.device, a.record, a.startedAt, a.sequence, a.at, p);
  }

  // Before number n went out, every smaller number was delivered, in order.
  lemma {:induction false} EarlierNumbersWereDelivered(log: seq<Attempt>, i: nat, m: nat, p: Policy) returns (j: nat)
    requires LogOk(log, p) && i < |log| && m < log[i].sequence
    ensures j < i && SameOperation(log[j], log[i]) && log[j].sequence == m && log[j].recorded
    ensures log[j].at + Deadline(log[i].startedAt, log[i].sequence, p) - Deadline(log[i].startedAt, m, p) <= log[i].at
    decreases log[i].sequence
  {
    hide LogOk;
    j := Predecessor(log, i, p);
    assert Deadline(log[i].startedAt, log[i].sequence, p)
        == Deadline(log[i].startedAt, log[j].sequence, p) + p.repeatEvery;
    if m < log[j].sequence {
      var k := EarlierNumbersWereDelivered(log, j, m, p);
      j := k;
    }
  }

  // Attempt i came in time: not early, numbered as the last one or one higher, and
  // after recorded deliveries of all smaller numbers.
  ghost predicate Timely(log: seq<Attempt>, i: nat, p: Policy)
    requires i < |log|
  {
    && log[i].at >= log[i].startedAt + p.overdueAfter + log[i].sequence * p.repeatEvery
    && (forall h :: 0 <= h < i && SameOperation(log[h], log[i]) ==> log[h].sequence <= log[i].sequence)
    && (forall m: nat :: m < log[i].sequence ==> DeliveredBefore(log, i, m, p))
  }

  lemma OkLogIsTimely(log: seq<Attempt>, i: nat, p: Policy)
    requires LogOk(log, p) && i < |log|
    ensures Timely(log, i, p)
  {
    DeadlineIsLinear(log[i].startedAt, log[i].sequence, p);
    assert Ready(log[..i], log[i].device, log[i].record, log[i].startedAt, log[i].sequence, log[i].at, p);
    forall m: nat | m < log[i].sequence ensures DeliveredBefore(log, i, m, p) {
      var j := EarlierNumbersWereDelivered(log, i, m, p);
      assert Delivers(log[j], log[i], m, p);
    }
  }

  /** In every run from an empty store whose acceptances are harmless: a reminder is
      never early, its number never decreases, and no number is skipped - each smaller
      one was delivered before, at least one interval per number earlier. */
  lemma RemindersAreTimely(clock: int, steps: seq<Step>, p: Policy, i: nat)
    requires Runnable(NOTHING.(clock := clock), steps, p) && Careful(NOTHING.(clock := clock), steps, p)
    requires i < |After(NOTHING.(clock := clock), steps, p).log|
    ensures Timely(After(NOTHING.(clock := clock), steps, p).log, i, p)
  {
    var w := NOTHING.(clock := clock);
    assert Inv(w, p);
    RunKeepsInv(w, steps, p);
    OkLogIsTimely(After(w, steps, p).log, i, p);
  }

  predicate DeliveredBefore(log: seq<Attempt>, i: nat, m: nat, p: Policy)
    requires i < |log|
  {
    exists j :: 0 <= j < i && Delivers(log[j], log[i], m, p)
  }

  predicate Delivers(a: Attempt, b: Attempt, m: nat, p: Policy) {
    && SameOperation(a, b) && a.sequence == m && a.recorded
    && a.at + Deadline(b.startedAt, b.sequence, p) - Deadline(b.startedAt, m, p) <= b.at
  }

  // ------------------------------------------------------- the exact condition

  // However the run goes on from w with harmless acceptances, every attempt is in time.
  ghost predicate KeepsBound(w: World, p: Policy) {
    forall steps :: Runnable(w, steps, p) && Careful(w, steps, p) ==> LogOk(After(w, steps, p).log, p)
  }

  /** An acceptance keeps the bound if and only if it is harmless: a condition on the
      task rows at that moment.  A record that returns with a newer creation time while
      a reminder of its old start is still alive sends that reminder for the new start. */
  lemma AcceptanceKeepsBoundExactly(w: World, d: Device, obs: Observation, now: int, p: Policy)
    requires Inv(w, p) && Enabled(w, Observe(d, obs, now), p)
    ensures KeepsBound(Next(w, Observe(d, obs, now), p), p) <==> Harmless(w, d, obs, now, p)
  {
    var w' := Next(w, Observe(d, obs, now), p);
    if Harmless(w, d, obs, now, p) {
      ObserveKeepsInv(w, d, obs, now, p);
      forall steps | Runnable(w', steps, p) && Careful(w', steps, p) ensures LogOk(After(w', steps, p).log, p) {
        RunKeepsInv(w', steps, p);
      }
    } else {
      var id :| id in w.tasks.rows && Live(w.tasks.rows[id], d, w.tasks.ctx)
        && w.tasks.rows[id].payload.record == obs.record && !Fits(w.tasks.rows[id], obs, now, p);
      HarmfulIsEarly(w, d, obs, now, p, id);
    }
  }

  // Someone turns out to be the recipient.
  function Found(obs: Observation): Observation { obs.(initiator := Some("u"), initiatorType := Some("u")) }

  // The live reminder is claimed if need be, and handled as soon as possible.
  function Outbreak(d: Device, obs: Observation, now: int, at: int, id: Id, pending: bool): seq<Step> {
    [Observe(d, Found(obs), now)]
    + (if pending then [Work(Runs.Take(at, "w", 1, {id}), at)] else []) + [Handle(id, at, Delivered)]
  }

  lemma HarmfulIsEarly(w: World, d: Device, obs: Observation, now: int, p: Policy, id: Id)
    requires Inv(w, p) && Enabled(w, Observe(d, obs, now), p) && Accepted(w.ops, d, obs) && obs.starts
    requires Saved(w.ops, d, obs).CanBeKnown()
    requires id in w.tasks.rows && Live(w.tasks.rows[id], d, w.tasks.ctx)
    requires w.tasks.rows[id].payload.record == obs.record && !Fits(w.tasks.rows[id], obs, now, p)
    ensures !KeepsBound(Next(w, Observe(d, obs, now), p), p)
  {
    var w1 := Next(w, Observe(d, obs, now), p);
    var w2 := Next(w1, Observe(d, Found(obs), now), p);
    var at, t := Earliest(w.tasks.rows[id], now), w.tasks.rows[id];
    assert !Accepted(w1.ops, d, Found(obs)) && w2.ops[d].Known() && w2.tasks == w.tasks && w2.log == w.log;
    var w3 := if t.status == Pending then Next(w2, Work(Runs.Take(at, "w", 1, {id}), at), p) else w2;
    if t.status == Pending { LiveIsClaimed(w2, id, at, p); }
    assert StillOpen(w3.ops, d, obs.record) && w3.tasks.rows[id].status == Running;
    var w4 := Next(w3, Handle(id, at, Delivered), p);
    assert w4.log == w.log + [Attempt(d, obs.record, obs.createdAt, t.payload.sequence, at, true)];
    EarlyAttempt(w, w4.log, d, obs, now, p, t);
    OutbreakRuns(w1, w2, w3, w4, d, obs, now, at, id, t.status == Pending, p);
  }

  lemma LiveIsClaimed(w: World, id: Id, at: int, p: Policy)
    requires CtxOk(w.tasks.ctx) && id in w.tasks.rows && w.tasks.rows[id].status == Pending && w.clock <= at
    requires w.tasks.rows[id].due <= at && !Doomed(w.tasks.rows[id], w.tasks.ctx)
    ensures Enabled(w, Work(Runs.Take(at, "w", 1, {id}), at), p)
    ensures var u := Next(w, Work(Runs.Take(at, "w", 1, {id}), at), p);
            && u.ops == w.ops && u.log == w.log && id in u.tasks.rows && u.tasks.rows[id].status == Running
            && u.tasks.rows[id].payload == w.tasks.rows[id].payload
            && u.tasks.rows[id].taskType == w.tasks.rows[id].taskType
            && u.tasks.rows[id].entity == w.tasks.rows[id].entity
  {
    DoomIgnoresTheClock(w.tasks.rows[id], w.tasks.ctx, at);
    assert Candidate(Quarantine(w.tasks, at), id, at, {});
  }

  // The attempt of the old reminder for the new start.
  lemma EarlyAttempt(w: World, log: seq<Attempt>, d: Device, obs: Observation, now: int, p: Policy, t: Task)
    requires SeenOk(w) && Accepted(w.ops, d, obs) && !Fits(t, obs, now, p)
    requires log == w.log + [Attempt(d, obs.record, obs.createdAt, t.payload.sequence, Earliest(t, now), true)]
    ensures !LogOk(log, p)
  {
    var i, a := |w.log|, log[|w.log|];
    assert log[..i] == w.log;
    forall j | 0 <= j < i ensures !Precedes(w.log[j], d, obs.record, obs.createdAt, a.sequence, a.at, p) {
      assert w.log[j].device in w.ops;
    }
  }

  lemma OutbreakRuns(
    w1: World, w2: World, w3: World, w4: World, d: Device, obs: Observation, now: int, at: int, id: Id,
    pending: bool, p: Policy)
    requires Enabled(w1, Observe(d, Found(obs), now), p) && !Accepted(w1.ops, d, Found(obs))
    requires w2 == Next(w1, Observe(d, Found(obs), now), p)
    requires pending ==> Enabled(w2, Work(Runs.Take(at, "w", 1, {id}), at), p)
    requires w3 == if pending then Next(w2, Work(Runs.Take(at, "w", 1, {id}), at), p) else w2
    requires id in w3.tasks.rows && Enabled(w3, Handle(id, at, Delivered), p)
    requires w4 == Next(w3, Handle(id, at, Delivered), p)
    ensures var steps := Outbreak(d, obs, now, at, id, pending);
            Runnable(w1, steps, p) && Careful(w1, steps, p) && After(w1, steps, p) == w4
  {
    hide Enabled, Next, Inv;
    var steps := Outbreak(d, obs, now, at, id, pending);
    var handle := [Handle(id, at, Delivered)];
    assert handle[1..] == [] && Runnable(w4, [], p);
    assert Runnable(w3, handle, p) && Careful(w3, handle, p) && After(w3, handle, p) == w4;
    if pending {
      var rest := [Work(Runs.Take(at, "w", 1, {id}), at)] + handle;
      assert rest[1..] == handle;
      assert Runnable(w2, rest, p) && Careful(w2, rest, p) && After(w2, rest, p) == w4;
      assert steps[1..] == rest;
    } else {
      assert steps[1..] == handle;
    }
  }

  /** A record never accepted before is harmless. */
  lemma FreshRecordIsHarmless(w: World, d: Device, obs: Observation, now: int, p: Policy)
    requires Inv(w, p) && (d, obs.record) !in w.seen
    ensures Harmless(w, d, obs, now, p)
  {
  }

  predicate New(w: World, st: Step) {
    st.Observe? && Accepted(w.ops, st.d, st.obs) ==> (st.d, st.obs.record) !in w.seen
  }

  // Each record is accepted once per device.
  ghost predicate Once(w: World, steps: seq<Step>, p: Policy)
    requires Runnable(w, steps, p)
    decreases |steps|
  {
    steps == [] || (New(w, steps[0]) && Once(Next(w, steps[0], p), steps[1..], p))
  }

  /** So runs in which no record is re-dated keep the bound. */
  lemma {:induction false} OnceIsCareful(w: World, steps: seq<Step>, p: Policy)
    requires Inv(w, p) && Runnable(w, steps, p) && Once(w, steps, p)
    ensures Careful(w, steps, p)
    decreases |steps|
  {
    if steps != [] {
      if steps[0].Observe? && Accepted(w.ops, steps[0].d, steps[0].obs) {
        FreshRecordIsHarmless(w, steps[0].d, steps[0].obs, steps[0].now, p);
      }
      EnabledHasRow(w, steps[0], p);
      hide Inv, Next, Enabled;
      StepKeepsInv(w, steps[0], p);
      OnceIsCareful(Next(w, steps[0], p), steps[1..], p);
    }
  }

  /** The failing run, from an empty store: record 1 opens at 0 with a grace of 100,
      its reminder is claimed at 100, the record is re-dated to 99, and the reminder
      goes out for the new start at 102, far before 199. */
  lemma ReDatedRecordIsRemindedEarly() returns (steps: seq<Step>, p: Policy)
    ensures Runnable(NOTHING, steps, p)
    ensures var log := After(NOTHING, steps, p).log;
            |log| == 1 && log[0].sequence == 0 && log[0].at < log[0].startedAt + p.overdueAfter
  {
    p := Policy(100, 50);
    var obs := Observation(1, 0, true, Some("u"), Some("u"), false);
    var w1 := ClaimedReminder(obs, p);
    steps := [Observe("D", obs, 0), Generate("D", 100, 0, None), Work(Runs.Take(100, "w", 1, {0}), 100)];
    ClaimedReminderIsReached(obs, p, steps);
    var again := obs.(createdAt := 99);
    var w2 := Next(w1, Observe("D", again, 101), p);
    assert w2.tasks == w1.tasks && StillOpen(w2.ops, "D", 1) && w2.ops["D"].Known();
    RunOneMore(NOTHING, steps, Observe("D", again, 101), p);
    RunOneMore(NOTHING, steps + [Observe("D", again, 101)], Handle(0, 102, Delivered), p);
    steps := steps + [Observe("D", again, 101)] + [Handle(0, 102, Delivered)];
  }

  function ClaimedReminder(obs: Observation, p: Policy): World {
    var op := Operation(obs.record, 0, true, 0, obs.initiator, obs.initiatorType, None, None, None);
    var task := NewTask(Unknown, ReminderRequest("D", op, 0, 100), Some(ReminderKey("D", obs.record, 0)));
    World(map["D" := op], Store(map[0 := task.Claimed(100, "w", 1)], Unknown), [], {("D", obs.record)}, 100)
  }

  lemma ClaimedReminderIsReached(obs: Observation, p: Policy, steps: seq<Step>)
    requires obs == Observation(1, 0, true, Some("u"), Some("u"), false) && p == Policy(100, 50)
    requires steps == [Observe("D", obs, 0), Generate("D", 100, 0, None), Work(Runs.Take(100, "w", 1, {0}), 100)]
    ensures Runnable(NOTHING, steps, p) && After(NOTHING, steps, p) == ClaimedReminder(obs, p)
  {
    assert ReminderKey("D", 1, 0) != "";
    hide ReminderKey, HistoryKey, Decimal, IsReminder;
    var w1 := Next(NOTHING, steps[0], p);
    var op := Operation(1, 0, true, 0, Some("u"), Some("u"), None, None, None);
    assert w1 == World(map["D" := op], Store(map[], Unknown), [], {("D", 1)}, 0);
    var req := ReminderRequest("D", op, 0, 100);
    assert Generates(w1.ops, w1.tasks, "D", p, 100) && Arming(w1.ops, "D", p, 100) == req;
    assert !ArchiveClash(w1.tasks, req.key, None);
    var w2 := Next(w1, steps[1], p);
    assert w2.tasks == Store(map[0 := NewTask(Unknown, req, Some(req.key))], Unknown);
    assert Quarantine(w2.tasks, 100) == w2.tasks;
    assert Candidate(w2.tasks, 0, 100, {});
    var w3 := Next(w2, steps[2], p);
    assert w3 == ClaimedReminder(obs, p);
    assert steps[1..][1..] == [steps[2]] && [steps[2]][1..] == [];
    assert Runnable(w3, [], p) && Runnable(w2, [steps[2]], p) && After(w2, [steps[2]], p) == w3;
    assert Runnable(w1, steps[1..], p) && After(w1, steps[1..], p) == w3;
  }
}
