/**
 The durable task table: rows, the runtime context that stamps them, and every
 operation that changes them.  Each operation has a specification function on
 the table value; `TaskRepository` performs it in place.
 */
module TaskStore {
  import opened Base

  type Id = nat
  type Epoch = nat

  datatype Mode = Disabled | Shadow | Active

  // Unknown: no runtime context was ever installed.
  datatype Context = Unknown | Installed(mode: Mode, epoch: Option<Epoch>, cutover: Option<int>)

  datatype Status = Pending | Running | Succeeded | Cancelled | Failed | LegacyPending

  // The payload entries other components read back.
  datatype Payload = Payload(localEvent: Option<nat>, record: nat, sequence: nat, retry: nat)

  datatype Task = Task(
    taskType: string, entity: string, due: int, status: Status, payload: Payload,
    key: Option<string>, createdAt: int, updatedAt: int, startedAt: Option<int>,
    finishedAt: Option<int>, claimedAt: Option<int>, lease: Option<int>,
    worker: Option<string>, attempts: nat, error: Option<string>,
    mode: Option<Mode>, epoch: Option<Epoch>)
  {
    predicate Unfinished() { status == Pending || status == Running }

    predicate External() { taskType in EXTERNAL_TYPES }

    // Lease columns are cleared by everything that ends or parks a task.
    function Parked(s: Status, now: int): Task {
      this.(status := s, updatedAt := now, lease := None, worker := None)
    }

    predicate ClaimableAt(now: int) {
      || (status == Pending && due <= now)
      || (status == Running && lease.Some? && lease.value <= now)
    }

    function Claimed(now: int, worker: string, leaseFor: int): Task {
      this.(status := Running, startedAt := Some(startedAt.GetOr(now)), claimedAt := Some(now),
            lease := Some(now + leaseFor), worker := Some(worker), updatedAt := now,
            attempts := attempts + 1)
    }
  }

  const EXTERNAL_TYPES: set<string> := {
    "RECONCILE_ALARM_EVENT", "NOTIFY_ALARM", "NOTIFY_RECOVERY", "NOTIFY_PREWARNING",
    "NOTIFY_PREWARNING_RECOVERY", "NOTIFY_OPERATION_OVERDUE", "PROJECT_DEVICE_STATUS"
  }

  datatype Store = Store(rows: map<Id, Task>, ctx: Context)

  datatype Request = Request(taskType: string, entity: string, due: int, payload: Payload,
                             key: string, createdAt: int)

  datatype Error = TaskStateError | KeyError | IntegrityError | ValueError

  // ------------------------------------------------------- specification

  function SetContext(s: Store, mode: Mode, now: int, newEpoch: Epoch): Store {
    s.(ctx :=
      if mode == Active && s.ctx.Installed? && s.ctx.mode == Active && s.ctx.epoch.Some?
      then s.ctx
      else if mode == Active then Installed(Active, Some(newEpoch), Some(now))
      else Installed(mode, None, None))
  }

  predicate Outdated(t: Task, ctx: Context, now: int)
    requires ctx.Installed?
  {
    if ctx.mode == Active then
      || t.mode != Some(Active)
      || t.epoch != ctx.epoch
      || t.createdAt < ctx.cutover.GetOr(now)
    else true
  }

  predicate Quarantinable(t: Task, ctx: Context, now: int) {
    && ctx.Installed? && (ctx.mode == Active ==> ctx.epoch.Some?)
    && t.External() && t.Unfinished() && Outdated(t, ctx, now)
  }

  function Blamed(t: Task, reason: string): Task { t.(error := Some(t.error.GetOr(reason))) }

  function Reason(ctx: Context): string {
    if ctx.Installed? && ctx.mode == Active then "legacy_external_effect_before_active_cutover"
    else "external_effect_blocked_while_runtime_not_active"
  }

  function Isolated(t: Task, ctx: Context, now: int): Task {
    if Quarantinable(t, ctx, now) then Blamed(t.Parked(LegacyPending, now), Reason(ctx)) else t
  }

  function Quarantine(s: Store, now: int): Store {
    s.(rows := map id | id in s.rows :: Isolated(s.rows[id], s.ctx, now))
  }

  ghost function LegacyRows(s: Store, now: int): set<Id> {
    set id | id in s.rows && Quarantinable(s.rows[id], s.ctx, now)
  }

  lemma QuarantineIsRowwise(s: Store, now: int)
    ensures forall id :: id in s.rows ==>
              && (Quarantinable(s.rows[id], s.ctx, now) ==>
                    Isolated(s.rows[id], s.ctx, now)
                    == Blamed(s.rows[id].Parked(LegacyPending, now), Reason(s.ctx)))
              && (!Quarantinable(s.rows[id], s.ctx, now) ==> Isolated(s.rows[id], s.ctx, now) == s.rows[id])
  {
  }

  predicate Stale(t: Task, now: int, staleAfter: int) {
    || (t.status == Running && t.lease.Some? && t.lease.value <= now)
    || (t.status == Pending && t.due <= now - staleAfter)
  }

  const RESTARTED := "requeued after stale runtime restart"

  function Requeued(t: Task, now: int, staleAfter: int): Task {
    if Stale(t, now, staleAfter) then Blamed(t.Parked(Pending, now).(due := now), RESTARTED) else t
  }

  function Recover(s: Store, now: int, staleAfter: int): Store {
    s.(rows := map id | id in s.rows :: Requeued(s.rows[id], now, staleAfter))
  }

  ghost function StaleRows(s: Store, now: int, staleAfter: int): set<Id> {
    set id | id in s.rows && Stale(s.rows[id], now, staleAfter)
  }

  lemma BlamedKeepsQueue()
    ensures forall t, reason: string :: Blamed(t, reason) == t.(error := Blamed(t, reason).error)
  {
  }

  lemma RecoverIsRowwise(s: Store, now: int, staleAfter: int)
    ensures forall id :: id in s.rows ==>
              && (Stale(s.rows[id], now, staleAfter) ==>
                    Requeued(s.rows[id], now, staleAfter)
                    == Blamed(s.rows[id].Parked(Pending, now).(due := now), RESTARTED))
              && (!Stale(s.rows[id], now, staleAfter) ==> Requeued(s.rows[id], now, staleAfter) == s.rows[id])
  {
  }

  function NewTask(ctx: Context, req: Request, key: Option<string>): Task {
    Task(req.taskType, req.entity, req.due, Pending, req.payload, key, req.createdAt, req.createdAt,
         None, None, None, None, None, 0, None,
         if ctx.Installed? then Some(ctx.mode) else None,
         if ctx.Installed? then ctx.epoch else None)
  }

  predicate Owns(s: Store, id: Id, key: string) { id in s.rows && s.rows[id].key == Some(key) }

  predicate KeyTaken(s: Store, key: string) { exists id :: id in s.rows && Owns(s, id, key) }

  // Insert unless some row already owns the key.
  function Create(s: Store, newId: Id, req: Request, keyed: bool): Store {
    if keyed && KeyTaken(s, req.key) then s
    else s.(rows := s.rows[newId := NewTask(s.ctx, req, if keyed then Some(req.key) else None)])
  }

  // Which unfinished rows stand for the same piece of work as the request.
  predicate SameWork(t: Task, req: Request) {
    && t.taskType == req.taskType && t.Unfinished()
    && if req.taskType == "RECONCILE_ALARM_EVENT" then
         || t.key == Some(req.key)
         || (t.key.Some? && (req.key + ":retry:") <= t.key.value)
         || (req.payload.localEvent.Some? && t.payload.localEvent == req.payload.localEvent)
       else if req.taskType == "PROJECT_DEVICE_STATUS" then t.key == Some(req.key)
       else t.entity == req.entity
  }

  // RUNNING rows first, then the earliest due, then the smallest id.
  predicate Before(a: Task, i: Id, b: Task, j: Id) {
    if a.status != b.status && (a.status == Running || b.status == Running) then a.status == Running
    else if a.due != b.due then a.due < b.due
    else i <= j
  }

  predicate IsWinner(s: Store, req: Request, w: Option<Id>) {
    match w
    case None => forall id :: id in s.rows ==> !SameWork(s.rows[id], req)
    case Some(x) =>
      && x in s.rows && SameWork(s.rows[x], req)
      && forall id :: id in s.rows && SameWork(s.rows[id], req) ==> Before(s.rows[x], x, s.rows[id], id)
  }

  function HexText(n: nat): (t: string) {
    var digit := "0123456789abcdef"[n % 16];
    if n < 16 then [digit] else HexText(n / 16) + [digit]
  }

  function HistoryKey(key: string, owner: Id): string { key + ":HISTORY:" + HexText(owner) }

  // Archiving the key of a former owner must not hit a key that is in use.
  predicate ArchiveClash(s: Store, key: string, keeper: Option<Id>) {
    exists o :: o in s.rows && Some(o) != keeper && Owns(s, o, key) && KeyTaken(s, HistoryKey(key, o))
  }

  // Another row owns the key, and the history key it would get is taken as well.
  ghost predicate HistoryInUse(s: Store, key: string, keeper: Option<Id>) {
    exists o, p :: && o in s.rows && p in s.rows && Some(o) != keeper && s.rows[o].key == Some(key)
                   && s.rows[p].key == Some(key + ":HISTORY:" + HexText(o))
  }

  lemma ClashInColumns(s: Store, key: string, keeper: Option<Id>)
    requires ArchiveClash(s, key, keeper)
    ensures HistoryInUse(s, key, keeper)
  {
    var o :| o in s.rows && Some(o) != keeper && Owns(s, o, key) && KeyTaken(s, HistoryKey(key, o));
    var p :| p in s.rows && Owns(s, p, HistoryKey(key, o));
    assert HistoryKey(key, o) == key + ":HISTORY:" + HexText(o);
  }

  // Legacy duplicates of winner `x` that still wait are cancelled.
  function Deduped(t: Task, id: Id, req: Request, x: Id): Task {
    if id != x && t.status == Pending && SameWork(t, req)
    then t.Parked(Cancelled, req.createdAt).(finishedAt := Some(req.createdAt)) else t
  }

  // The winner takes the key; a waiting one may move earlier, never later.
  function Promoted(t: Task, req: Request): Task {
    var t1 := if req.taskType == "SHADOW_COMPARE" && t.status == Pending
              then t.(payload := req.payload, updatedAt := req.createdAt) else t;
    var t2 := t1.(key := Some(req.key));
    if t.status == Pending && req.due < t.due then t2.(due := req.due, updatedAt := req.createdAt) else t2
  }

  // What adopting winner `x` for the request does to row `id`.
  function Adopted(t: Task, id: Id, req: Request, x: Id): Task {
    if req.taskType == "RECONCILE_ALARM_EVENT" then Deduped(t, id, req, x)
    else if id == x then Promoted(t, req)
    else Archived(Deduped(t, id, req, x), id, req.key)
  }

  function Archived(t: Task, id: Id, key: string): Task {
    if t.key == Some(key) then t.(key := Some(HistoryKey(key, id))) else t
  }

  function CreateUnfinished(s: Store, newId: Id, req: Request, w: Option<Id>): Result<Store, Error> {
    if req.taskType == "" || req.entity == "" || req.key == "" then Err(ValueError)
    else match w
      case Some(x) =>
        if req.taskType != "RECONCILE_ALARM_EVENT" && ArchiveClash(s, req.key, w) then Err(IntegrityError)
        else Ok(s.(rows := map id | id in s.rows :: Adopted(s.rows[id], id, req, x)))
      case None =>
        if ArchiveClash(s, req.key, None) then Err(IntegrityError)
        else Ok(s.(rows := (map id | id in s.rows :: Archived(s.rows[id], id, req.key))
                           [newId := NewTask(s.ctx, req, Some(req.key))]))
  }

  // Claim the given ids after the claim-time quarantine.
  function Claim(s: Store, now: int, worker: string, leaseFor: int, ids: set<Id>): Store {
    var q := Quarantine(s, now);
    q.(rows := map id | id in q.rows ::
      if id in ids then q.rows[id].Claimed(now, worker, leaseFor) else q.rows[id])
  }

  function Reschedule(s: Store, id: Id, worker: Option<string>, due: int, now: int, payload: Payload)
    : Result<Store, Error>
  {
    if id in s.rows && s.rows[id].status == Running && worker.Some? && s.rows[id].worker == worker
    then Ok(s.(rows := s.rows[id := s.rows[id].Parked(Pending, now).(due := due, payload := payload)]))
    else Err(TaskStateError)
  }

  function Cancel(s: Store, id: Id, now: int): Result<Store, Error> {
    if id !in s.rows then Err(KeyError)
    else if !s.rows[id].Unfinished() then Err(TaskStateError)
    else Ok(s.(rows := s.rows[id := s.rows[id].Parked(Cancelled, now).(finishedAt := Some(now))]))
  }

  function Finish(s: Store, id: Id, verdict: Status, at: int, error: Option<string>, worker: Option<string>)
    : Result<Store, Error>
  {
    if id !in s.rows then Err(KeyError)
    else
      var t := s.rows[id];
      if t.status != Running then Err(TaskStateError)
      else if worker.Some? && t.worker != worker then Err(TaskStateError)
      else if t.lease.Some? && t.lease.value <= at then Err(TaskStateError)
      else Ok(s.(rows := s.rows[id := t.Parked(verdict, at).(finishedAt := Some(at), error := error)]))
  }

  // ------------------------------------------------------- claim order

  // The pattern 'NOTIFY_%': letters of either case, and any character for the underscore.
  predicate LikeNotify(s: string) {
    |s| >= 7 && forall i :: 0 <= i < 6 ==> s[i] == "NOTIFY"[i] || s[i] == "notify"[i]
  }

  function Rank(t: Task, now: int): nat {
    if t.taskType in {"VERIFY_ALARM", "VERIFY_RECOVERY", "RECONCILE_ALARM_EVENT", "SYNC_STANDARD"}
       || LikeNotify(t.taskType) then 0
    else if t.taskType == "SHADOW_COMPARE" && t.due > now - 60 then 2
    else 1
  }

  predicate Precedes(a: Task, i: Id, b: Task, j: Id, now: int) {
    if Rank(a, now) != Rank(b, now) then Rank(a, now) < Rank(b, now)
    else if a.due != b.due then a.due < b.due
    else i <= j
  }

  predicate Candidate(s: Store, id: Id, now: int, exclude: set<Id>) {
    id in s.rows && id !in exclude && s.rows[id].ClaimableAt(now)
  }

  // A claim batch: distinct candidates in queue order, as many as allowed, and
  // ahead of everything left behind.
  ghost predicate IsBatch(s: Store, now: int, limit: nat, exclude: set<Id>, ids: seq<Id>) {
    && |ids| <= limit
    && (forall k :: 0 <= k < |ids| ==> Candidate(s, ids[k], now, exclude))
    && (forall j, k :: 0 <= j < k < |ids| ==>
          ids[j] != ids[k] && Precedes(s.rows[ids[j]], ids[j], s.rows[ids[k]], ids[k], now))
    && (forall id :: Candidate(s, id, now, exclude) && id !in ids ==>
          && |ids| == limit
          && forall k :: 0 <= k < |ids| ==> Precedes(s.rows[ids[k]], ids[k], s.rows[id], id, now))
  }

  // Work that must not wait behind observations.
  predicate Urgent(t: Task) {
    || t.taskType == "VERIFY_ALARM" || t.taskType == "VERIFY_RECOVERY" || t.taskType == "RECONCILE_ALARM_EVENT"
    || t.taskType == "SYNC_STANDARD" || LikeNotify(t.taskType)
  }

  // A comparison that has waited for less than a minute.
  predicate Recent(t: Task, now: int) { t.taskType == "SHADOW_COMPARE" && t.due > now - 60 }

  // Row i has its turn no later than row j: urgent work first, recent comparisons
  // last, and within a class the earlier due time, then the smaller id.
  predicate TurnsBefore(t: Task, i: Id, u: Task, j: Id, now: int) {
    && (Urgent(u) ==> Urgent(t))
    && (Recent(t, now) ==> Recent(u, now))
    && (Urgent(t) == Urgent(u) && Recent(t, now) == Recent(u, now) ==> t.due < u.due || (t.due == u.due && i <= j))
  }

  // Claimed rows in turn, and no row left behind whose turn came first.
  ghost predicate InTurn(s: Store, now: int, exclude: set<Id>, ids: seq<Id>) {
    && (forall k :: 0 <= k < |ids| ==> ids[k] in s.rows)
    && (forall j, k :: 0 <= j < k < |ids| ==>
          TurnsBefore(s.rows[ids[j]], ids[j], s.rows[ids[k]], ids[k], now))
    && (forall id, k :: id in s.rows && id !in exclude && id !in ids && s.rows[id].ClaimableAt(now)
                        && 0 <= k < |ids| ==>
          TurnsBefore(s.rows[ids[k]], ids[k], s.rows[id], id, now))
  }

  lemma NotificationsAreUrgent(t: Task)
    ensures "NOTIFY_" <= t.taskType ==> Urgent(t)
    ensures t.taskType == "SHADOW_COMPARE" ==> !Urgent(t)
  {
    if "NOTIFY_" <= t.taskType { assert forall i :: 0 <= i < 6 ==> t.taskType[i] == "NOTIFY_"[i] == "NOTIFY"[i]; }
    if t.taskType == "SHADOW_COMPARE" { assert t.taskType[0] == 'S'; }
  }

  /** A batch in queue order takes urgent work first and recent comparisons last. */
  lemma BatchIsInTurn(s: Store, now: int, limit: nat, exclude: set<Id>, ids: seq<Id>)
    requires IsBatch(s, now, limit, exclude, ids)
    ensures InTurn(s, now, exclude, ids)
  {
    forall a, i, b, j | Precedes(a, i, b, j, now) ensures TurnsBefore(a, i, b, j, now) {
      NotificationsAreUrgent(a);
      NotificationsAreUrgent(b);
    }
    hide Precedes, TurnsBefore;
  }

  // An unfinished row of an external type that an installed context does not cover:
  // any such row outside Active, and in Active one of another mode or epoch or from
  // before the cutover.
  predicate BehindContext(t: Task, c: Context, now: int) {
    && c.Installed? && (t.status == Pending || t.status == Running)
    && (t.taskType == "RECONCILE_ALARM_EVENT" || t.taskType == "NOTIFY_ALARM" || t.taskType == "NOTIFY_RECOVERY"
        || t.taskType == "NOTIFY_PREWARNING" || t.taskType == "NOTIFY_PREWARNING_RECOVERY"
        || t.taskType == "NOTIFY_OPERATION_OVERDUE" || t.taskType == "PROJECT_DEVICE_STATUS")
    && (c.mode == Active ==>
          c.epoch.Some? && (t.mode != Some(Active) || t.epoch != c.epoch
                            || t.createdAt < if c.cutover.Some? then c.cutover.value else now))
  }

  lemma QuarantinableInColumns(t: Task, c: Context, now: int)
    ensures Quarantinable(t, c, now) <==> BehindContext(t, c, now)
  {
  }

  // Row u is row t in another status, set aside with its first reason kept.
  predicate MovedTo(u: Task, t: Task, status: Status, due: int, now: int) {
    && u == t.(status := status, due := due, updatedAt := now, lease := None, worker := None, error := u.error)
    && u.error.Some? && (t.error.Some? ==> u.error == t.error)
  }

  lemma IsolatedInColumns(t: Task, c: Context, now: int)
    requires BehindContext(t, c, now)
    ensures MovedTo(Isolated(t, c, now), t, LegacyPending, t.due, now)
  {
  }

  // Left behind by a stopped runtime: an expired lease, or due for too long.
  predicate LeftBehind(t: Task, now: int, staleAfter: int) {
    || (t.status == Running && t.lease.Some? && t.lease.value <= now)
    || (t.status == Pending && t.due + staleAfter <= now)
  }

  // A row as it is inserted: waiting, never claimed, stamped with mode and epoch.
  predicate IsNew(t: Task, req: Request, c: Context) {
    && t.status == Pending && t.taskType == req.taskType && t.entity == req.entity && t.due == req.due
    && t.payload == req.payload && t.createdAt == req.createdAt && t.updatedAt == req.createdAt && t.attempts == 0
    && (t.startedAt, t.finishedAt, t.claimedAt, t.lease) == (None, None, None, None)
    && t.worker == None && t.error == None
    && (c.Installed? ==> t.mode == Some(c.mode) && t.epoch == c.epoch)
    && (c.Unknown? ==> t.mode == None && t.epoch == None)
  }

  // What a claim does to the columns of a row.
  predicate TakenFrom(t: Task, u: Task, now: int, worker: string, leaseFor: int) {
    && ((t.status == Pending && t.due <= now) || (t.status == Running && t.lease.Some? && t.lease.value <= now))
    && u.status == Running && u.worker == Some(worker) && u.lease == Some(now + leaseFor)
    && u.claimedAt == Some(now) && u.startedAt == (if t.startedAt.Some? then t.startedAt else Some(now))
    && u.attempts == t.attempts + 1 && u.updatedAt == now && u.finishedAt == t.finishedAt
    && (u.taskType, u.entity, u.due, u.payload, u.key) == (t.taskType, t.entity, t.due, t.payload, t.key)
    && (u.createdAt, u.error, u.mode, u.epoch) == (t.createdAt, t.error, t.mode, t.epoch)
  }

  // Due or abandoned: a claim that leaves such a row out is full.
  lemma BatchLeavesNoneOut(s: Store, now: int, limit: nat, exclude: set<Id>, ids: seq<Id>)
    requires IsBatch(s, now, limit, exclude, ids)
    ensures forall id :: id in s.rows && id !in exclude && id !in ids
                         && ((s.rows[id].status == Pending && s.rows[id].due <= now)
                             || (s.rows[id].status == Running && s.rows[id].lease.Some?
                                 && s.rows[id].lease.value <= now)) ==>
              |ids| == limit
  {
    hide Precedes;
    assert forall id :: id in s.rows && s.rows[id].ClaimableAt(now) && id !in exclude ==>
        Candidate(s, id, now, exclude);
  }

  // A batch of the quarantined table holds unquarantined claimable rows.
  lemma BatchIsLive(s: Store, now: int, limit: nat, exclude: set<Id>, ids: seq<Id>)
    requires IsBatch(Quarantine(s, now), now, limit, exclude, ids)
    ensures forall id :: id in ids ==> id in s.rows && Quarantine(s, now).rows[id] == s.rows[id]
    ensures forall id :: id in ids ==> s.rows[id].ClaimableAt(now)
    ensures forall k :: 0 <= k < |ids| ==> ids[k] in s.rows && Quarantine(s, now).rows[ids[k]].ClaimableAt(now)
    ensures forall j, k :: 0 <= j < k < |ids| ==> ids[j] != ids[k]
  {
    QuarantineIsRowwise(s, now);
    hide Isolated, Quarantinable, Precedes;
    forall id | id in ids
      ensures id in s.rows && Quarantine(s, now).rows[id] == s.rows[id] && s.rows[id].ClaimableAt(now)
    {
      assert Candidate(Quarantine(s, now), id, now, exclude);
    }
  }

  // ------------------------------------------------------- the repository

  class TaskRepository {
    var store: Store

    constructor ()
      ensures store == Store(map[], Unknown)
    {
      store := Store(map[], Unknown);
    }

    method SetRuntimeContext(mode: Mode, now: int, newEpoch: Epoch)
      modifies this
      ensures store == SetContext(old(store), mode, now, newEpoch) && store.rows == old(store).rows
      ensures var was := old(store).ctx;
              store.ctx == if mode != Active then Installed(mode, None, None)
                           else if was.Installed? && was.mode == Active && was.epoch.Some? then was
                           else Installed(Active, Some(newEpoch), Some(now))
    {
      var epoch, cutover := None, None;
      if mode == Active {
        if store.ctx.Installed? && store.ctx.mode == Active && store.ctx.epoch.Some? {
          epoch, cutover := store.ctx.epoch, store.ctx.cutover;
        } else {
          epoch, cutover := Some(newEpoch), Some(now);
        }
      }
      store := store.(ctx := Installed(mode, epoch, cutover));
    }

    /** Parks exactly the unfinished external rows that the current context does not
        cover, and says how many there were. */
    method QuarantineLegacy(now: int) returns (count: nat)
      modifies this
      ensures store == Quarantine(old(store), now) && store.rows.Keys == old(store).rows.Keys
      ensures forall id :: id in store.rows ==>
                (store.rows[id].status == LegacyPending <==>
                   old(store).rows[id].status == LegacyPending
                   || Quarantinable(old(store).rows[id], old(store).ctx, now))
      ensures forall id :: id in store.rows ==>
                (Quarantinable(old(store).rows[id], old(store).ctx, now) <==>
                   BehindContext(old(store).rows[id], old(store).ctx, now))
      ensures forall id :: id in store.rows && !Quarantinable(old(store).rows[id], old(store).ctx, now) ==>
                store.rows[id] == old(store).rows[id]
      ensures forall id :: id in store.rows && BehindContext(old(store).rows[id], old(store).ctx, now) ==>
                MovedTo(store.rows[id], old(store).rows[id], LegacyPending, old(store).rows[id].due, now)
      ensures count == |LegacyRows(old(store), now)|
    {
      QuarantineIsRowwise(store, now);
      forall id | id in store.rows
        ensures Quarantinable(store.rows[id], store.ctx, now) <==> BehindContext(store.rows[id], store.ctx, now)
        ensures BehindContext(store.rows[id], store.ctx, now) ==>
                  MovedTo(Isolated(store.rows[id], store.ctx, now), store.rows[id], LegacyPending,
                          store.rows[id].due, now)
      {
        QuarantinableInColumns(store.rows[id], store.ctx, now);
        if BehindContext(store.rows[id], store.ctx, now) { IsolatedInColumns(store.rows[id], store.ctx, now); }
      }
      hide Quarantinable, Isolated, BehindContext, MovedTo;
      var hit := SweepLegacy(now);
      count := |hit|;
    }

    method SweepLegacy(now: int) returns (hit: set<Id>)
      modifies this
      ensures store == Quarantine(old(store), now) && hit == LegacyRows(old(store), now)
    {
      QuarantineIsRowwise(store, now);
      hide Quarantinable, Isolated, Blamed, Reason;
      ghost var before := store;
      var todo := store.rows.Keys;
      hit := {};
      while todo != {}
        invariant todo <= before.rows.Keys && store.ctx == before.ctx && store.rows.Keys == before.rows.Keys
        invariant forall id :: id in before.rows ==>
                    store.rows[id] == if id in todo then before.rows[id] else Isolated(before.rows[id], before.ctx, now)
        invariant hit == LegacyRows(before, now) - todo
        decreases todo
      {
        var id :| id in todo;
        todo := todo - {id};
        var legacy := IsLegacy(store.rows[id], store.ctx, now);
        if legacy {
          var t := Blamed(store.rows[id].Parked(LegacyPending, now), Reason(store.ctx));
          store := store.(rows := store.rows[id := t]);
          hit := hit + {id};
        }
      }
      assert store.rows == Quarantine(before, now).rows;
      assert hit == LegacyRows(before, now);
    }

    // The eligibility test, branch by branch.
    method IsLegacy(t: Task, ctx: Context, now: int) returns (legacy: bool)
      ensures legacy == Quarantinable(t, ctx, now)
    {
      if ctx.Unknown? || (ctx.mode == Active && ctx.epoch.None?) { return false; }
      if t.taskType !in EXTERNAL_TYPES || (t.status != Pending && t.status != Running) { return false; }
      if ctx.mode != Active { return true; }
      var cutover := if ctx.cutover.Some? then ctx.cutover.value else now;
      legacy := t.mode != Some(Active) || t.epoch.None? || t.epoch != ctx.epoch || t.createdAt < cutover;
    }

    /** Puts exactly the rows a stopped runtime left behind back into the queue. */
    method RecoverStale(now: int, staleAfter: int) returns (r: Result<nat, Error>)
      modifies this
      ensures r.Err? <==> staleAfter <= 0
      ensures r.Err? ==> r.error == ValueError && store == old(store)
      ensures r.Ok? ==> store == Recover(old(store), now, staleAfter)
      ensures r.Ok? ==> store.rows.Keys == old(store).rows.Keys
      ensures r.Ok? ==> forall id :: id in store.rows && Stale(old(store).rows[id], now, staleAfter) ==>
                store.rows[id].status == Pending && store.rows[id].attempts == old(store).rows[id].attempts
      ensures r.Ok? ==> forall id :: id in store.rows && Stale(old(store).rows[id], now, staleAfter) ==>
                MovedTo(store.rows[id], old(store).rows[id], Pending, now, now)
      ensures r.Ok? ==> forall id :: id in store.rows && !Stale(old(store).rows[id], now, staleAfter) ==>
                store.rows[id] == old(store).rows[id]
      ensures r.Ok? ==> forall id :: id in store.rows ==>
                (Stale(old(store).rows[id], now, staleAfter) <==> LeftBehind(old(store).rows[id], now, staleAfter))
      ensures r.Ok? ==> r.value == |StaleRows(old(store), now, staleAfter)|
    {
      if staleAfter <= 0 { return Err(ValueError); }
      RecoverIsRowwise(store, now, staleAfter);
      BlamedKeepsQueue();
      assert forall t :: Stale(t, now, staleAfter) <==> LeftBehind(t, now, staleAfter);
      hide LeftBehind;
      hide Stale, Requeued, Blamed;
      var hit := SweepStale(now, staleAfter);
      r := Ok(|hit|);
    }

    method SweepStale(now: int, staleAfter: int) returns (hit: set<Id>)
      modifies this
      ensures store == Recover(old(store), now, staleAfter) && hit == StaleRows(old(store), now, staleAfter)
    {
      RecoverIsRowwise(store, now, staleAfter);
      hide Stale, Requeued, Blamed;
      ghost var before := store;
      var todo := store.rows.Keys;
      hit := {};
      while todo != {}
        invariant todo <= before.rows.Keys && store.ctx == before.ctx && store.rows.Keys == before.rows.Keys
        invariant forall id :: id in before.rows ==>
                    store.rows[id] == if id in todo then before.rows[id] else Requeued(before.rows[id], now, staleAfter)
        invariant hit == StaleRows(before, now, staleAfter) - todo
        decreases todo
      {
        var id :| id in todo;
        todo := todo - {id};
        var t := store.rows[id];
        var stale := IsStale(t, now, staleAfter);
        if stale {
          t := t.(status := Pending, due := now, updatedAt := now, lease := None, worker := None);
          store := store.(rows := store.rows[id := Blamed(t, RESTARTED)]);
          hit := hit + {id};
        }
      }
      assert store.rows == Recover(before, now, staleAfter).rows;
      assert hit == StaleRows(before, now, staleAfter);
    }

    method IsStale(t: Task, now: int, staleAfter: int) returns (stale: bool)
      ensures stale == Stale(t, now, staleAfter)
    {
      var expired := t.status == Running && t.lease.Some? && t.lease.value <= now;
      stale := expired || (t.status == Pending && t.due <= now - staleAfter);
    }

    method OwnerOf(key: string) returns (o: Option<Id>)
      ensures o.Some? ==> Owns(store, o.value, key)
      ensures o.None? ==> !KeyTaken(store, key)
    {
      o := None;
      var todo := store.rows.Keys;
      while todo != {}
        invariant todo <= store.rows.Keys
        invariant forall id :: id in store.rows && id !in todo ==> !Owns(store, id, key)
        decreases todo
      {
        var id :| id in todo;
        if store.rows[id].key == Some(key) { return Some(id); }
        todo := todo - {id};
      }
    }

    method CreateOrGet(newId: Id, req: Request, keyed: bool) returns (id: Id)
      requires newId !in store.rows
      modifies this
      ensures store == Create(old(store), newId, req, keyed)
      ensures id in store.rows && (keyed ==> Owns(store, id, req.key)) && (!keyed ==> id == newId)
      ensures keyed && (exists o :: o in old(store).rows && old(store).rows[o].key == Some(req.key)) ==>
                store == old(store)
      ensures !keyed || !(exists o :: o in old(store).rows && old(store).rows[o].key == Some(req.key)) ==>
                && id == newId && IsNew(store.rows[id], req, old(store).ctx)
                && store.rows[id].key == (if keyed then Some(req.key) else None)
                && forall o :: o in old(store).rows ==> o in store.rows && store.rows[o] == old(store).rows[o]
    {
      var owner := None;
      if keyed { owner := OwnerOf(req.key); }
      if owner.Some? { return owner.value; }
      var key := if keyed then Some(req.key) else None;
      store := store.(rows := store.rows[newId := NewTask(store.ctx, req, key)]);
      id := newId;
    }

    // The first row of the active set, in winner order.
    method FindWinner(req: Request) returns (w: Option<Id>)
      ensures IsWinner(store, req, w)
    {
      w := None;
      var todo := store.rows.Keys;
      while todo != {}
        invariant todo <= store.rows.Keys
        invariant w.Some? ==> w.value in store.rows && SameWork(store.rows[w.value], req)
        invariant w.None? ==> forall id :: id in store.rows && id !in todo ==> !SameWork(store.rows[id], req)
        invariant w.Some? ==> forall id :: id in store.rows && id !in todo && SameWork(store.rows[id], req) ==>
                    Before(store.rows[w.value], w.value, store.rows[id], id)
        decreases todo
      {
        var id :| id in todo;
        var t := store.rows[id];
        if SameWork(t, req) && (w.None? || Before(t, id, store.rows[w.value], w.value)) {
          w := Some(id);
        }
        todo := todo - {id};
      }
    }

    // Moves the key of a row other than the keeper to a history-only key.
    method ReleaseKey(key: string, keeper: Option<Id>) returns (r: Result<(), Error>)
      requires UniqueKeys(store)
      modifies this
      ensures r == if ArchiveClash(old(store), key, keeper) then Err(IntegrityError) else Ok(())
      ensures r.Err? <==> HistoryInUse(old(store), key, keeper)
      ensures r.Ok? ==> forall o :: o in store.rows && Some(o) != keeper ==> store.rows[o].key != Some(key)
      ensures r.Err? ==> store == old(store)
      ensures r.Ok? ==> store == old(store).(rows := map id | id in old(store).rows ::
                if Some(id) != keeper then Archived(old(store).rows[id], id, key) else old(store).rows[id])
    {
      var owner := OwnerOf(key);
      if owner.None? || owner == keeper {
        assert forall id :: id in store.rows && Owns(store, id, key) ==> Some(id) == keeper;
        assert store.rows == map id | id in store.rows ::
                if Some(id) != keeper then Archived(store.rows[id], id, key) else store.rows[id];
        return Ok(());
      }
      var o := owner.value;
      var archive := HistoryKey(key, o);
      var clash := OwnerOf(archive);
      if clash.Some? { return Err(IntegrityError); }
      assert forall id :: id in store.rows && Owns(store, id, key) ==> id == o;
      store := store.(rows := store.rows[o := store.rows[o].(key := Some(archive))]);
      r := Ok(());
    }

    method CreateOrGetUnfinished(newId: Id, req: Request) returns (r: Result<Id, Error>, ghost w: Option<Id>)
      requires newId !in store.rows && UniqueKeys(store)
      modifies this
      ensures IsWinner(old(store), req, w)
      ensures match CreateUnfinished(old(store), newId, req, w)
              case Ok(s) => store == s && r == Ok(w.GetOr(newId))
              case Err(e) => store == old(store) && r == Err(e)
      ensures r == Err(ValueError) <==> req.taskType == "" || req.entity == "" || req.key == ""
      ensures r.Err? ==> r.error in {ValueError, IntegrityError}
      ensures r == Err(IntegrityError) ==>
                && (w.None? || req.taskType != "RECONCILE_ALARM_EVENT")
                && HistoryInUse(old(store), req.key, w)
    {
      hide HistoryInUse, ArchiveClash;
      ghost var before := store;
      forall keeper | ArchiveClash(before, req.key, keeper) ensures HistoryInUse(before, req.key, keeper) {
        ClashInColumns(before, req.key, keeper);
      }
      var winner := FindWinner(req);
      w := winner;
      if req.taskType == "" || req.entity == "" || req.key == "" {
        return Err(ValueError), w;
      }
      if winner.Some? {
        var adopted := AdoptWinner(req, winner.value);
        r := if adopted.Ok? then Ok(winner.value) else Err(adopted.error);
        return;
      }
      var released := ReleaseKey(req.key, None);
      if released.Err? { return Err(IntegrityError), w; }
      assert store.rows == map id | id in old(store).rows :: Archived(old(store).rows[id], id, req.key);
      store := store.(rows := store.rows[newId := NewTask(store.ctx, req, Some(req.key))]);
      r := Ok(newId);
    }

    // Makes the winner the only waiting row of its class and the owner of the key.
    method AdoptWinner(req: Request, x: Id) returns (r: Result<(), Error>)
      requires UniqueKeys(store) && x in store.rows && SameWork(store.rows[x], req)
      modifies this
      ensures r == if req.taskType != "RECONCILE_ALARM_EVENT" && ArchiveClash(old(store), req.key, Some(x))
                   then Err(IntegrityError) else Ok(())
      ensures r.Err? ==> store == old(store)
      ensures r.Ok? ==> store == old(store).(rows := map id | id in old(store).rows ::
                Adopted(old(store).rows[id], id, req, x))
    {
      hide SameWork, HistoryKey, ArchiveClash, UniqueKeys;
      var before := store;
      CancelDuplicates(req, x);
      SameKeysStayUnique(before, store);
      if req.taskType == "RECONCILE_ALARM_EVENT" {
        assert store.rows == map id | id in before.rows :: Adopted(before.rows[id], id, req, x);
        return Ok(());
      }
      SameKeysSameClash(before, store, req.key, Some(x));
      var released := ReleaseKey(req.key, Some(x));
      if released.Err? {
        store := before;       // the write scope rolls back
        return Err(IntegrityError);
      }
      PromoteWinner(req, x);
      assert store.rows == map id | id in before.rows :: Adopted(before.rows[id], id, req, x);
      r := Ok(());
    }

    method PromoteWinner(req: Request, x: Id)
      requires x in store.rows
      modifies this
      ensures store == old(store).(rows := old(store).rows[x := Promoted(old(store).rows[x], req)])
    {
      var t := store.rows[x];
      if req.taskType == "SHADOW_COMPARE" && t.status == Pending {
        t := t.(payload := req.payload, updatedAt := req.createdAt);
      }
      t := t.(key := Some(req.key));
      if t.status == Pending && req.due < t.due {
        t := t.(due := req.due, updatedAt := req.createdAt);
      }
      store := store.(rows := store.rows[x := t]);
    }

    method CancelDuplicates(req: Request, x: Id)
      modifies this
      ensures store == old(store).(rows := map id | id in old(store).rows ::
                Deduped(old(store).rows[id], id, req, x))
    {
      store := store.(rows := map id | id in store.rows ::
        if id != x && store.rows[id].status == Pending && SameWork(store.rows[id], req)
        then store.rows[id].Parked(Cancelled, req.createdAt).(finishedAt := Some(req.createdAt))
        else store.rows[id]);
    }

    // One round of the ordered selection: the best candidate not yet taken.
    method NextCandidate(now: int, exclude: set<Id>) returns (best: Option<Id>)
      ensures best.None? ==> forall id :: !Candidate(store, id, now, exclude)
      ensures best.Some? ==> Candidate(store, best.value, now, exclude)
      ensures best.Some? ==> forall id :: Candidate(store, id, now, exclude) ==>
                Precedes(store.rows[best.value], best.value, store.rows[id], id, now)
    {
      best := None;
      var todo := store.rows.Keys;
      while todo != {}
        invariant todo <= store.rows.Keys
        invariant best.Some? ==> Candidate(store, best.value, now, exclude)
        invariant best.None? ==> forall id :: Candidate(store, id, now, exclude) ==> id in todo
        invariant best.Some? ==> forall id :: Candidate(store, id, now, exclude) && id !in todo ==>
                    Precedes(store.rows[best.value], best.value, store.rows[id], id, now)
        decreases todo
      {
        var id :| id in todo;
        if Candidate(store, id, now, exclude)
           && (best.None? || Precedes(store.rows[id], id, store.rows[best.value], best.value, now)) {
          best := Some(id);
        }
        todo := todo - {id};
      }
    }

    method SelectDue(now: int, limit: nat, exclude: set<Id>) returns (ids: seq<Id>)
      ensures IsBatch(store, now, limit, exclude, ids) && InTurn(store, now, exclude, ids)
      ensures |ids| <= limit && forall id :: id in ids ==> id in store.rows && id !in exclude
      ensures forall id :: id in store.rows && id !in exclude && id !in ids
                           && ((store.rows[id].status == Pending && store.rows[id].due <= now)
                               || (store.rows[id].status == Running && store.rows[id].lease.Some?
                                   && store.rows[id].lease.value <= now)) ==>
                |ids| == limit
    {
      hide InTurn;
      ids := [];
      var taken := exclude;
      while |ids| < limit
        invariant |ids| <= limit
        invariant taken == exclude + (set id | id in ids)
        invariant forall k :: 0 <= k < |ids| ==> Candidate(store, ids[k], now, exclude)
        invariant forall j, k :: 0 <= j < k < |ids| ==>
                    ids[j] != ids[k] && Precedes(store.rows[ids[j]], ids[j], store.rows[ids[k]], ids[k], now)
        invariant forall id, k :: Candidate(store, id, now, taken) && 0 <= k < |ids| ==>
                    Precedes(store.rows[ids[k]], ids[k], store.rows[id], id, now)
        decreases limit - |ids|
      {
        var best := NextCandidate(now, taken);
        if best.None? {
          assert forall id :: Candidate(store, id, now, exclude) && id !in ids ==> Candidate(store, id, now, taken);
          BatchIsInTurn(store, now, limit, exclude, ids);
          BatchLeavesNoneOut(store, now, limit, exclude, ids);
          return;
        }
        ids := ids + [best.value];
        taken := taken + {best.value};
      }
      assert forall id :: Candidate(store, id, now, exclude) && id !in ids ==> Candidate(store, id, now, taken);
      BatchIsInTurn(store, now, limit, exclude, ids);
      BatchLeavesNoneOut(store, now, limit, exclude, ids);
    }

    method ClaimDue(now: int, limit: int, worker: string, leaseFor: int, exclude: set<Id>)
      returns (r: Result<seq<Id>, Error>)
      modifies this
      ensures r.Err? <==> limit <= 0 || worker == "" || leaseFor <= 0
      ensures r.Err? ==> r.error == ValueError && store == old(store)
      ensures r.Ok? ==> && IsBatch(Quarantine(old(store), now), now, limit, exclude, r.value)
                        && store == Claim(old(store), now, worker, leaseFor, set id | id in r.value)
                        && forall k :: 0 <= k < |r.value| ==> r.value[k] in store.rows
      ensures r.Ok? ==> |r.value| <= limit && InTurn(Quarantine(old(store), now), now, exclude, r.value)
      ensures r.Ok? ==> forall id :: id in r.value ==>
                id in old(store).rows && TakenFrom(old(store).rows[id], store.rows[id], now, worker, leaseFor)
      ensures r.Ok? ==> forall id :: id in store.rows && id !in r.value ==>
                store.rows[id] == Quarantine(old(store), now).rows[id]
      ensures r.Ok? ==> (forall id :: id in r.value ==> id !in exclude) && store.rows.Keys == old(store).rows.Keys
      ensures r.Ok? && |r.value| < limit ==> forall id :: id in store.rows && id !in exclude && id !in r.value ==>
                && !(store.rows[id].status == Pending && store.rows[id].due <= now)
                && !(store.rows[id].status == Running && store.rows[id].lease.Some?
                     && store.rows[id].lease.value <= now)
    {
      if limit <= 0 || worker == "" || leaseFor <= 0 { return Err(ValueError); }
      var _ := QuarantineLegacy(now);
      hide IsBatch, InTurn, Isolated;
      ghost var before := old(store);
      var due := SelectDue(now, limit, exclude);
      BatchIsLive(before, now, limit, exclude, due);
      MarkClaimed(due, now, worker, leaseFor);
      r := Ok(due);
    }

    // One UPDATE per selected row, each re-checking that it is still claimable.
    method MarkClaimed(due: seq<Id>, now: int, worker: string, leaseFor: int)
      requires forall k :: 0 <= k < |due| ==> due[k] in store.rows && store.rows[due[k]].ClaimableAt(now)
      requires forall j, k :: 0 <= j < k < |due| ==> due[j] != due[k]
      modifies this
      ensures store == old(store).(rows := map id | id in old(store).rows ::
                if id in due then old(store).rows[id].Claimed(now, worker, leaseFor) else old(store).rows[id])
    {
      var q := store;
      var n := 0;
      while n < |due|
        invariant 0 <= n <= |due| && store.ctx == q.ctx && store.rows.Keys == q.rows.Keys
        invariant forall id :: id in q.rows && id in due[..n] ==>
                    store.rows[id] == q.rows[id].Claimed(now, worker, leaseFor)
        invariant forall id :: id in q.rows && id !in due[..n] ==> store.rows[id] == q.rows[id]
      {
        var id := due[n];
        if store.rows[id].ClaimableAt(now) {
          store := store.(rows := store.rows[id := store.rows[id].Claimed(now, worker, leaseFor)]);
        }
        n := n + 1;
      }
    }

    method RescheduleRunning(id: Id, worker: Option<string>, due: int, now: int, payload: Payload)
      returns (r: Result<(), Error>)
      modifies this
      ensures r.Ok? <==> id in old(store).rows && old(store).rows[id].status == Running
                         && worker.Some? && old(store).rows[id].worker == worker
      ensures r.Ok? ==> OnlyRow(old(store), store, id) && store.rows[id] == old(store).rows[id].(
                status := Pending, due := due, payload := payload, updatedAt := now, lease := None, worker := None)
      ensures match Reschedule(old(store), id, worker, due, now, payload)
              case Ok(s) => store == s && r == Ok(())
              case Err(e) => store == old(store) && r == Err(e)
    {
      if id !in store.rows || store.rows[id].status != Running || worker.None?
         || store.rows[id].worker != worker {
        return Err(TaskStateError);
      }
      var t := store.rows[id].Parked(Pending, now).(due := due, payload := payload);
      store := store.(rows := store.rows[id := t]);
      r := Ok(());
    }

    method CancelTask(id: Id, now: int) returns (r: Result<(), Error>)
      modifies this
      ensures r == if id !in old(store).rows then Err(KeyError)
                   else if old(store).rows[id].status in {Pending, Running} then Ok(()) else Err(TaskStateError)
      ensures r.Ok? ==> OnlyRow(old(store), store, id) && store.rows[id] == old(store).rows[id].(
                status := Cancelled, finishedAt := Some(now), updatedAt := now, lease := None, worker := None)
      ensures match Cancel(old(store), id, now)
              case Ok(s) => store == s && r == Ok(())
              case Err(e) => store == old(store) && r == Err(e)
    {
      if id !in store.rows { return Err(KeyError); }
      var t := store.rows[id];
      if t.status != Pending && t.status != Running { return Err(TaskStateError); }
      store := store.(rows := store.rows[id := t.Parked(Cancelled, now).(finishedAt := Some(now))]);
      r := Ok(());
    }

    method FinishTask(id: Id, verdict: Status, at: int, error: Option<string>, worker: Option<string>)
      returns (r: Result<(), Error>)
      modifies this
      ensures r.Err? ==> r.error == if id !in old(store).rows then KeyError else TaskStateError
      ensures r.Ok? <==> id in old(store).rows && old(store).rows[id].status == Running
                         && (worker.Some? ==> old(store).rows[id].worker == worker)
                         && (old(store).rows[id].lease.Some? ==> at < old(store).rows[id].lease.value)
      ensures r.Ok? ==> OnlyRow(old(store), store, id) && store.rows[id] == old(store).rows[id].(
                status := verdict, finishedAt := Some(at), error := error, updatedAt := at, lease := None,
                worker := None)
      ensures match Finish(old(store), id, verdict, at, error, worker)
              case Ok(s) => store == s && r == Ok(())
              case Err(e) => store == old(store) && r == Err(e)
    {
      if id !in store.rows { return Err(KeyError); }
      var t := store.rows[id];
      if t.status != Running { return Err(TaskStateError); }
      if worker.Some? && t.worker != worker { return Err(TaskStateError); }
      if t.lease.Some? && t.lease.value <= at { return Err(TaskStateError); }
      store := store.(rows := store.rows[id := t.Parked(verdict, at).(finishedAt := Some(at), error := error)]);
      r := Ok(());
    }
  }

  // Nothing but row id differs.
  predicate OnlyRow(s: Store, u: Store, id: Id) {
    && u.ctx == s.ctx && u.rows.Keys == s.rows.Keys && id in s.rows
    && forall o :: o in s.rows && o != id ==> u.rows[o] == s.rows[o]
  }

  // ------------------------------------------------------- adoption, column by column

  predicate OwnClass(req: Request) {
    req.taskType != "RECONCILE_ALARM_EVENT" && req.taskType != "PROJECT_DEVICE_STATUS"
  }

  // Unfinished work of the same type on the same entity; of a status projection, on the same key.
  predicate InClass(t: Task, req: Request) {
    && t.taskType == req.taskType && (t.status == Pending || t.status == Running)
    && (req.taskType != "PROJECT_DEVICE_STATUS" ==> t.entity == req.entity)
    && (req.taskType == "PROJECT_DEVICE_STATUS" ==> t.key == Some(req.key))
  }

  /** The row found for a request: none exactly when its class has no unfinished row;
      else a RUNNING one if there is one, and of equals the earliest due. */
  lemma WinnerInColumns(s: Store, req: Request, w: Option<Id>)
    requires IsWinner(s, req, w) && req.taskType != "RECONCILE_ALARM_EVENT"
    ensures w.None? <==> forall o :: o in s.rows ==> !InClass(s.rows[o], req)
    ensures w.Some? ==> w.value in s.rows && InClass(s.rows[w.value], req)
    ensures w.Some? ==> forall o :: o in s.rows && InClass(s.rows[o], req) ==>
              var t, u := s.rows[w.value], s.rows[o];
              && (u.status == Running ==> t.status == Running)
              && (u.status == t.status ==> t.due < u.due || (t.due == u.due && w.value <= o))
  {
    assert forall o :: o in s.rows ==> (SameWork(s.rows[o], req) <==> InClass(s.rows[o], req));
    hide SameWork;
  }

  /** What reusing row x does: it takes the key and, while waiting, the earlier due
      time; waiting duplicates are cancelled; a former owner of the key gets a history
      key; no other column of any row changes. */
  lemma AdoptionInColumns(s: Store, newId: Id, req: Request, x: Id, o: Id)
    requires IsWinner(s, req, Some(x)) && req.taskType != "RECONCILE_ALARM_EVENT"
    requires CreateUnfinished(s, newId, req, Some(x)).Ok? && o in s.rows
    ensures var u := CreateUnfinished(s, newId, req, Some(x)).value;
            && u.rows.Keys == s.rows.Keys && u.ctx == s.ctx
            && var t, t' := s.rows[o], u.rows[o];
            if o == x then
              && (t.status == Running ==> t' == t.(key := Some(req.key)))
              && (t.status == Pending ==>
                    && t'.due == (if req.due < t.due then req.due else t.due)
                    && t'.payload == (if req.taskType == "SHADOW_COMPARE" then req.payload else t.payload)
                    && t' == t.(key := Some(req.key), due := t'.due, payload := t'.payload, updatedAt := t'.updatedAt))
            else if t.status == Pending && InClass(t, req) then
              t' == t.(status := Cancelled, finishedAt := Some(req.createdAt), updatedAt := req.createdAt,
                       lease := None, worker := None, key := t'.key)
              && (t.key != Some(req.key) ==> t'.key == t.key)
            else t' == t.(key := t'.key) && (t.key != Some(req.key) ==> t'.key == t.key)
  {
    WinnerInColumns(s, req, Some(x));
    assert SameWork(s.rows[o], req) <==> InClass(s.rows[o], req);
    hide IsWinner, ArchiveClash, HistoryKey, SameWork;
  }

  /** A request without unfinished work becomes a new waiting row that owns the key. */
  lemma CreationInColumns(s: Store, newId: Id, req: Request)
    requires newId !in s.rows && CreateUnfinished(s, newId, req, None).Ok?
    ensures var u := CreateUnfinished(s, newId, req, None).value;
            && newId in u.rows && IsNew(u.rows[newId], req, s.ctx) && u.rows[newId].key == Some(req.key)
            && u.rows.Keys == s.rows.Keys + {newId} && u.ctx == s.ctx
            && forall o :: o in s.rows ==>
                 u.rows[o] == s.rows[o].(key := u.rows[o].key)
                 && (s.rows[o].key != Some(req.key) ==> u.rows[o].key == s.rows[o].key)
  {
    hide ArchiveClash, HistoryKey;
  }

  /** A reconciliation of the same key, of a retry of it, or of the same event goes on
      untouched, backoff included; only waiting duplicates of it are cancelled. */
  lemma RetryKeepsItsBackoff(s: Store, newId: Id, req: Request, w: Option<Id>, o: Id)
    requires IsWinner(s, req, w) && req.taskType == "RECONCILE_ALARM_EVENT"
    requires CreateUnfinished(s, newId, req, w).Ok? && o in s.rows
    ensures var t := s.rows[o];
            var match_ := t.taskType == "RECONCILE_ALARM_EVENT" && (t.status == Pending || t.status == Running)
              && (t.key == Some(req.key) || (t.key.Some? && (req.key + ":retry:") <= t.key.value)
                  || (req.payload.localEvent.Some? && t.payload.localEvent == req.payload.localEvent));
            var u := CreateUnfinished(s, newId, req, w).value;
            && (match_ ==> w.Some? && u.rows.Keys == s.rows.Keys)
            && (w == Some(o) ==> match_ && u.rows[o] == t)
            && (w.Some? && w != Some(o) ==>
                  u.rows[o] == if match_ && t.status == Pending
                               then t.(status := Cancelled, finishedAt := Some(req.createdAt),
                                       updatedAt := req.createdAt, lease := None, worker := None)
                               else t)
  {
    hide ArchiveClash, HistoryKey;
  }

  lemma SameKeysSameClash(s: Store, t: Store, key: string, keeper: Option<Id>)
    requires s.rows.Keys == t.rows.Keys
    requires forall id :: id in s.rows ==> s.rows[id].key == t.rows[id].key
    ensures ArchiveClash(s, key, keeper) == ArchiveClash(t, key, keeper)
  {
  }

  lemma SameKeysStayUnique(s: Store, t: Store)
    requires UniqueKeys(s) && s.rows.Keys == t.rows.Keys
    requires forall id :: id in s.rows ==> s.rows[id].key == t.rows[id].key
    ensures UniqueKeys(t)
  {
  }

  // ------------------------------------------------------- key uniqueness

  ghost predicate UniqueKeys(s: Store) {
    forall i, j :: i in s.rows && j in s.rows && s.rows[i].key.Some? && s.rows[i].key == s.rows[j].key ==> i == j
  }
}
