/** Whole runs of the task table: leases, verdicts, epochs, and key ownership. */
module TaskRuns {
  import opened Base
  import opened TaskStore

  datatype Op =
    | SetMode(mode: Mode, now: int, epoch: Epoch)
    | Isolate(now: int)
    | Requeue(now: int, staleAfter: int)
    | New(id: Id, req: Request, keyed: bool)
    | NewUnfinished(id: Id, req: Request, winner: Option<Id>)
    | Take(now: int, claimer: string, leaseFor: int, ids: set<Id>)
    | Postpone(id: Id, from: Option<string>, due: int, now: int, payload: Payload)
    | Drop(id: Id, now: int)
    | Conclude(id: Id, verdict: Status, at: int, error: Option<string>, from: Option<string>)

  // Ids are new, winners and claimed rows are those the queries would select.
  ghost predicate Enabled(s: Store, op: Op) {
    match op
    case New(id, _, _) => id !in s.rows
    case NewUnfinished(id, req, w) => id !in s.rows && IsWinner(s, req, w)
    case Take(now, claimer, leaseFor, ids) =>
      claimer != "" && leaseFor > 0 && forall id :: id in ids ==> Candidate(Quarantine(s, now), id, now, {})
    case Conclude(_, verdict, _, _, _) => verdict == Succeeded || verdict == Failed
    case _ => true
  }

  function OrSame(r: Result<Store, Error>, s: Store): Store { if r.Ok? then r.value else s }

  // A refused operation changes nothing.
  function Next(s: Store, op: Op): Store {
    match op
    case SetMode(mode, now, epoch) => SetContext(s, mode, now, epoch)
    case Isolate(now) => Quarantine(s, now)
    case Requeue(now, staleAfter) => if staleAfter <= 0 then s else Recover(s, now, staleAfter)
    case New(id, req, keyed) => Create(s, id, req, keyed)
    case NewUnfinished(id, req, w) => OrSame(CreateUnfinished(s, id, req, w), s)
    case Take(now, claimer, leaseFor, ids) => Claim(s, now, claimer, leaseFor, ids)
    case Postpone(id, from, due, now, payload) => OrSame(Reschedule(s, id, from, due, now, payload), s)
    case Drop(id, now) => OrSame(Cancel(s, id, now), s)
    case Conclude(id, verdict, at, error, from) => OrSame(Finish(s, id, verdict, at, error, from), s)
  }

  // ------------------------------------------------------- one step, one row

  predicate Terminal(st: Status) { st != Pending && st != Running }

  // A worker and a lease exactly while running.
  predicate LeaseShape(t: Task) {
    (t.lease.Some? <==> t.status == Running) && (t.worker.Some? <==> t.status == Running)
  }

  predicate SameOrigin(t: Task, u: Task) {
    t.mode == u.mode && t.epoch == u.epoch && t.createdAt == u.createdAt && t.taskType == u.taskType
    && t.entity == u.entity
  }

  lemma RowFate(s: Store, op: Op, id: Id)
    requires Enabled(s, op) && id in s.rows
    ensures var s' := Next(s, op);
            && id in s'.rows && SameOrigin(s.rows[id], s'.rows[id])
            && (Terminal(s.rows[id].status) ==> s'.rows[id].status == s.rows[id].status)
  {
    hide CreateUnfinished, IsWinner, ArchiveClash;
    if op.NewUnfinished? { AdoptionFate(s, op.id, op.req, op.winner, id); }
  }

  lemma AdoptionFate(s: Store, newId: Id, req: Request, w: Option<Id>, id: Id)
    requires newId !in s.rows && IsWinner(s, req, w) && id in s.rows
    ensures var s' := OrSame(CreateUnfinished(s, newId, req, w), s);
            && id in s'.rows && SameOrigin(s.rows[id], s'.rows[id])
            && (LeaseShape(s.rows[id]) ==> LeaseShape(s'.rows[id]))
            && (Terminal(s.rows[id].status) ==> s'.rows[id].status == s.rows[id].status)
            && (s'.rows[id].status in {Succeeded, Failed} ==> s.rows[id].status == s'.rows[id].status)
            && (s'.rows[id].status == Running ==>
                  (s.rows[id].status, s.rows[id].lease, s.rows[id].worker)
                  == (Running, s'.rows[id].lease, s'.rows[id].worker))
  {
    hide ArchiveClash, IsWinner, HistoryKey, SameWork;
  }

  lemma ShapeFate(s: Store, op: Op, id: Id)
    requires Enabled(s, op) && id in s.rows && LeaseShape(s.rows[id])
    ensures id in Next(s, op).rows && LeaseShape(Next(s, op).rows[id])
  {
    hide CreateUnfinished, IsWinner, ArchiveClash;
    if op.NewUnfinished? { AdoptionFate(s, op.id, op.req, op.winner, id); }
  }

  lemma RunningFate(s: Store, op: Op, id: Id)
    requires Enabled(s, op) && id in s.rows && Next(s, op).rows[id].status == Running
    ensures var t, t' := s.rows[id], Next(s, op).rows[id];
            if op.Take? && id in op.ids then
              t'.lease == Some(op.now + op.leaseFor) && t'.worker == Some(op.claimer)
            else t.status == Running && t'.lease == t.lease && t'.worker == t.worker
  {
    hide CreateUnfinished, IsWinner, ArchiveClash;
    if op.NewUnfinished? { AdoptionFate(s, op.id, op.req, op.winner, id); }
  }

  // Only a finish by the lease holder, before the deadline, writes a verdict.
  lemma VerdictFate(s: Store, op: Op, id: Id)
    requires Enabled(s, op) && id in s.rows
    requires Next(s, op).rows[id].status in {Succeeded, Failed}
    requires !Terminal(s.rows[id].status)
    ensures op.Conclude? && op.id == id && op.verdict == Next(s, op).rows[id].status
    ensures s.rows[id].status == Running
    ensures op.from.Some? ==> s.rows[id].worker == op.from
    ensures s.rows[id].lease.Some? ==> op.at < s.rows[id].lease.value
  {
    hide CreateUnfinished, IsWinner, ArchiveClash, Quarantinable, Stale, Candidate, KeyTaken;
    if op.NewUnfinished? { AdoptionFate(s, op.id, op.req, op.winner, id); }
  }

  lemma NewRowFate(s: Store, op: Op, id: Id)
    requires Enabled(s, op) && id !in s.rows && id in Next(s, op).rows
    ensures (op.New? || op.NewUnfinished?) && op.id == id
    ensures Next(s, op).rows[id].status == Pending && LeaseShape(Next(s, op).rows[id])
    ensures Next(s, op).rows[id].createdAt == op.req.createdAt && Next(s, op).rows[id].taskType == op.req.taskType
    ensures s.ctx.Installed? ==>
              Next(s, op).rows[id].mode == Some(s.ctx.mode) && Next(s, op).rows[id].epoch == s.ctx.epoch
    ensures s.ctx.Unknown? ==> Next(s, op).rows[id].mode == None
    ensures Next(s, op).ctx == s.ctx
  {
  }

  // ------------------------------------------------------- runs

  datatype Run = Run(states: seq<Store>, ops: seq<Op>)

  ghost predicate ValidRun(r: Run) {
    && |r.states| == |r.ops| + 1
    && r.states[0] == Store(map[], Unknown)
    && forall i :: 0 <= i < |r.ops| ==> Enabled(r.states[i], r.ops[i]) && r.states[i + 1] == Next(r.states[i], r.ops[i])
  }

  lemma {:induction false} ShapeHolds(r: Run, i: nat, id: Id)
    requires ValidRun(r) && i < |r.states| && id in r.states[i].rows
    ensures LeaseShape(r.states[i].rows[id])
  {
    hide Next;
    if i > 0 {
      if id in r.states[i - 1].rows {
        ShapeHolds(r, i - 1, id);
        ShapeFate(r.states[i - 1], r.ops[i - 1], id);
      } else {
        NewRowFate(r.states[i - 1], r.ops[i - 1], id);
      }
    }
  }

  // Step j claimed row `id`, and no later step before i did.
  ghost predicate LatestClaim(r: Run, j: nat, i: nat, id: Id)
    requires i <= |r.ops|
  {
    && j < i && r.ops[j].Take? && id in r.ops[j].ids
    && forall k :: j < k < i ==> !(r.ops[k].Take? && id in r.ops[k].ids)
  }

  lemma {:induction false} RunningWasClaimed(r: Run, i: nat, id: Id) returns (j: nat)
    requires ValidRun(r) && i < |r.states| && id in r.states[i].rows && r.states[i].rows[id].status == Running
    ensures LatestClaim(r, j, i, id)
    ensures r.states[i].rows[id].worker == Some(r.ops[j].claimer)
    ensures r.states[i].rows[id].lease == Some(r.ops[j].now + r.ops[j].leaseFor)
  {
    hide Next;
    var op := r.ops[i - 1];
    if id !in r.states[i - 1].rows {
      NewRowFate(r.states[i - 1], op, id);
      assert false;
    } else {
      RunningFate(r.states[i - 1], op, id);
      if op.Take? && id in op.ids { j := i - 1; } else { j := RunningWasClaimed(r, i - 1, id); }
    }
  }

  /** Every SUCCEEDED or FAILED verdict was written by a finish that named no
      worker or the worker of the latest claim, strictly before that claim's
      lease deadline. */
  lemma VerdictByLatestClaimer(r: Run, i: nat, id: Id)
    requires ValidRun(r) && i < |r.ops|
    requires id in r.states[i + 1].rows && r.states[i + 1].rows[id].status in {Succeeded, Failed}
    requires id in r.states[i].rows ==> r.states[i].rows[id].status != r.states[i + 1].rows[id].status
    ensures r.ops[i].Conclude? && r.ops[i].id == id && r.ops[i].verdict == r.states[i + 1].rows[id].status
    ensures exists j: nat :: LatestClaim(r, j, i, id)
              && (r.ops[i].from.Some? ==> r.ops[i].from.value == r.ops[j].claimer)
              && r.ops[i].at < r.ops[j].now + r.ops[j].leaseFor
  {
    hide Next;
    if id !in r.states[i].rows {
      NewRowFate(r.states[i], r.ops[i], id);
      assert false;
    } else {
      RowFate(r.states[i], r.ops[i], id);
      VerdictFate(r.states[i], r.ops[i], id);
      ShapeHolds(r, i, id);
      var j := RunningWasClaimed(r, i, id);
    }
  }

  /** SUCCEEDED, FAILED, CANCELLED and LEGACY_PENDING are never left. */
  lemma {:induction false} TerminalIsFinal(r: Run, i: nat, j: nat, id: Id)
    requires ValidRun(r) && i <= j < |r.states| && id in r.states[i].rows && Terminal(r.states[i].rows[id].status)
    ensures id in r.states[j].rows && r.states[j].rows[id].status == r.states[i].rows[id].status
    decreases j
  {
    hide Next;
    if i < j {
      TerminalIsFinal(r, i, j - 1, id);
      RowFate(r.states[j - 1], r.ops[j - 1], id);
    }
  }

  // ------------------------------------------------------- Active epochs

  // Every activation that opens an epoch brings an id of its own.
  ghost predicate FreshEpochs(r: Run) {
    forall i, j :: 0 <= i < j < |r.ops| && r.ops[i].SetMode? && r.ops[j].SetMode? ==> r.ops[i].epoch != r.ops[j].epoch
  }

  predicate InEpoch(s: Store, e: Epoch) { s.ctx.Installed? && s.ctx.mode == Active && s.ctx.epoch == Some(e) }

  lemma {:induction false} EpochHasOrigin(r: Run, i: nat, e: Epoch) returns (j: nat)
    requires ValidRun(r) && i < |r.states| && InEpoch(r.states[i], e)
    ensures j < i && r.ops[j].SetMode? && r.ops[j].epoch == e
  {
    var op := r.ops[i - 1];
    if op.SetMode? && op.epoch == e { j := i - 1; } else { j := EpochHasOrigin(r, i - 1, e); }
  }

  // Re-entering an epoch needs an activation that brings its id again.
  lemma {:induction false} EpochReentry(r: Run, m: nat, i: nat, e: Epoch) returns (j: nat)
    requires ValidRun(r) && m < i < |r.states| && !InEpoch(r.states[m], e) && InEpoch(r.states[i], e)
    ensures m <= j < i && r.ops[j].SetMode? && r.ops[j].epoch == e
  {
    var op := r.ops[i - 1];
    if op.SetMode? && op.epoch == e { j := i - 1; }
    else { j := EpochReentry(r, m, i - 1, e); }
  }

  lemma EpochIsUnbroken(r: Run, a: nat, m: nat, b: nat, e: Epoch)
    requires ValidRun(r) && FreshEpochs(r) && a <= m <= b < |r.states|
    requires InEpoch(r.states[a], e) && InEpoch(r.states[b], e)
    ensures InEpoch(r.states[m], e)
  {
    if !InEpoch(r.states[m], e) {
      var first := EpochHasOrigin(r, a, e);
      var again := EpochReentry(r, m, b, e);
      assert false;
    }
  }

  // Step j inserted row `id` and stamped it with the context of that moment.
  ghost predicate BornAt(r: Run, j: nat, id: Id)
    requires j < |r.ops| && |r.states| == |r.ops| + 1
  {
    id !in r.states[j].rows && id in r.states[j + 1].rows
  }

  lemma {:induction false} RowHasOrigin(r: Run, i: nat, id: Id) returns (j: nat)
    requires ValidRun(r) && i < |r.states| && id in r.states[i].rows
    ensures j < i && BornAt(r, j, id) && SameOrigin(r.states[j + 1].rows[id], r.states[i].rows[id])
  {
    hide Next;
    if id in r.states[i - 1].rows {
      j := RowHasOrigin(r, i - 1, id);
      RowFate(r.states[i - 1], r.ops[i - 1], id);
    } else {
      j := i - 1;
    }
  }

  // After a claim, only current-epoch external work can be running.
  lemma ClaimLeavesCurrentEpoch(s: Store, op: Op, id: Id)
    requires Enabled(s, op) && op.Take? && s.ctx.Installed? && (s.ctx.mode == Active ==> s.ctx.epoch.Some?)
    requires id in s.rows && s.rows[id].External() && Next(s, op).rows[id].status == Running
    ensures s.ctx.mode == Active && s.rows[id].mode == Some(Active) && s.rows[id].epoch == s.ctx.epoch
    ensures s.ctx.cutover.Some? ==> s.ctx.cutover.value <= s.rows[id].createdAt
  {
    TakenRow(s, op, id);
    QuarantineIsRowwise(s, op.now);
    hide Next, Enabled, Isolated;
  }

  // A row running after a claim was not parked by it.
  lemma TakenRow(s: Store, op: Op, id: Id)
    requires op.Take? && Enabled(s, op) && id in s.rows && Next(s, op).rows[id].status == Running
    ensures s.rows[id].Unfinished() && Isolated(s.rows[id], s.ctx, op.now).status != LegacyPending
  {
    hide Quarantinable;
    if id in op.ids { assert Candidate(Quarantine(s, op.now), id, op.now, {}); }
  }

  lemma {:induction false} ActiveHasEpoch(r: Run, i: nat)
    requires ValidRun(r) && i < |r.states|
    ensures r.states[i].ctx.Installed? && r.states[i].ctx.mode == Active ==>
              r.states[i].ctx.epoch.Some? && r.states[i].ctx.cutover.Some?
  {
    if i > 0 { ActiveHasEpoch(r, i - 1); }
  }

  // Row `id` was inserted by step j, and epoch e lasted from before that to state i.
  ghost predicate ActiveSince(r: Run, j: nat, i: nat, id: Id, e: Epoch)
    requires i < |r.ops| && |r.states| == |r.ops| + 1
  {
    j < i && BornAt(r, j, id) && forall m :: j <= m <= i ==> InEpoch(r.states[m], e)
  }

  /** Whenever a claim leaves an external-effect task RUNNING, the runtime has
      been Active, in one and the same epoch, in every state since the one that
      created the task, and the task is not older than that epoch's cutover. */
  lemma NoTaskCrossesEpochs(r: Run, i: nat, id: Id)
    requires ValidRun(r) && FreshEpochs(r) && i < |r.ops| && r.ops[i].Take? && r.states[i].ctx.Installed?
    requires id in r.states[i].rows && r.states[i].rows[id].External()
    requires r.states[i + 1].rows[id].status == Running
    ensures exists j: nat, e :: ActiveSince(r, j, i, id, e)
    ensures r.states[i].ctx.cutover.Some? && r.states[i].ctx.cutover.value <= r.states[i].rows[id].createdAt
  {
    hide Next;
    ActiveHasEpoch(r, i);
    ClaimLeavesCurrentEpoch(r.states[i], r.ops[i], id);
    var e := r.states[i].ctx.epoch.value;
    var j := RowHasOrigin(r, i, id);
    NewRowFate(r.states[j], r.ops[j], id);
    forall m | j <= m <= i ensures InEpoch(r.states[m], e) {
      EpochIsUnbroken(r, j, m, i, e);
    }
    assert ActiveSince(r, j, i, id, e);
  }

  // A context that isolates epochs at all.
  predicate Isolates(ctx: Context) { ctx.Installed? && (ctx.mode == Active ==> ctx.epoch.Some?) }

  /** What a claim does to an external row that is due.  It can be among the claimed
      rows, and is RUNNING afterwards if it is, exactly when the context isolates
      nothing or does not find the row outdated; otherwise it is parked for good. */
  lemma ClaimAdmitsExactly(s: Store, op: Op, id: Id)
    requires op.Take? && Enabled(s, op) && Candidate(s, id, op.now, {}) && s.rows[id].External()
    ensures var admitted := !Isolates(s.ctx) || !Outdated(s.rows[id], s.ctx, op.now);
            && (admitted <==> Enabled(s, op.(ids := op.ids + {id})))
            && (admitted ==> (Next(s, op).rows[id].status == Running <==> id in op.ids || s.rows[id].status == Running))
            && (!admitted ==> Next(s, op).rows[id].status == LegacyPending)
  {
  }

  // ------------------------------------------------------- key ownership

  lemma KeysStayUnique(s: Store, op: Op)
    requires UniqueKeys(s) && Enabled(s, op)
    ensures UniqueKeys(Next(s, op))
  {
    hide ArchiveClash, HistoryKey, Quarantinable, Stale, IsWinner, CreateUnfinished, Candidate;
    if op.NewUnfinished? && CreateUnfinished(s, op.id, op.req, op.winner).Ok? {
      UnfinishedKeepsKeysUnique(s, op.id, op.req, op.winner);
    } else if op.New? && !(op.keyed && KeyTaken(s, op.req.key)) {
      assert forall i :: i in s.rows && op.keyed ==> !Owns(s, i, op.req.key);
    }
  }

  lemma UnfinishedKeepsKeysUnique(s: Store, newId: Id, req: Request, w: Option<Id>)
    requires UniqueKeys(s) && newId !in s.rows && IsWinner(s, req, w) && CreateUnfinished(s, newId, req, w).Ok?
    ensures UniqueKeys(CreateUnfinished(s, newId, req, w).value)
  {
    var s' := CreateUnfinished(s, newId, req, w).value;
    if req.taskType == "RECONCILE_ALARM_EVENT" && w.Some? {
      assert forall i :: i in s.rows ==> s'.rows[i].key == s.rows[i].key;
    } else {
      var keeper := w.GetOr(newId);
      forall i | i in s'.rows ensures s'.rows[i].key == KeyAfter(s, i, req.key, keeper) { }
      forall i, j | i in s'.rows && j in s'.rows && i != j && s'.rows[i].key.Some?
        ensures s'.rows[i].key != s'.rows[j].key
      {
        KeysAfterDiffer(s, req.key, w, keeper, i, j);
      }
    }
  }

  // The key of row i once `keeper` owns `key` and any former owner is archived.
  function KeyAfter(s: Store, i: Id, key: string, keeper: Id): Option<string> {
    if i == keeper then Some(key)
    else if i !in s.rows then None
    else if s.rows[i].key == Some(key) then Some(HistoryKey(key, i))
    else s.rows[i].key
  }

  lemma KeysAfterDiffer(s: Store, key: string, w: Option<Id>, keeper: Id, i: Id, j: Id)
    requires UniqueKeys(s) && !ArchiveClash(s, key, w) && keeper == w.GetOr(keeper) && (w.None? ==> keeper !in s.rows)
    requires i != j && (i in s.rows || i == keeper) && (j in s.rows || j == keeper)
    requires KeyAfter(s, i, key, keeper).Some?
    ensures KeyAfter(s, i, key, keeper) != KeyAfter(s, j, key, keeper)
  {
  }

  lemma {:induction false} RunKeepsKeysUnique(r: Run, i: nat)
    requires ValidRun(r) && i < |r.states|
    ensures UniqueKeys(r.states[i])
  {
    if i > 0 {
      RunKeepsKeysUnique(r, i - 1);
      KeysStayUnique(r.states[i - 1], r.ops[i - 1]);
    }
  }

  predicate SameClass(t: Task, req: Request) { t.taskType == req.taskType && t.entity == req.entity }

  /** The returned row is unfinished, alone owns the key, and every other
      unfinished row of its class is RUNNING -- none at all if it is PENDING. */
  lemma UnfinishedIsUnique(s: Store, newId: Id, req: Request, w: Option<Id>)
    requires UniqueKeys(s) && newId !in s.rows && IsWinner(s, req, w) && OwnClass(req)
    requires CreateUnfinished(s, newId, req, w).Ok?
    ensures var s' := CreateUnfinished(s, newId, req, w).value;
            var id := w.GetOr(newId);
            && id in s'.rows && s'.rows[id].Unfinished() && SameClass(s'.rows[id], req)
            && (forall o :: o in s'.rows && Owns(s', o, req.key) <==> o == id)
            && (forall o :: o in s'.rows && o != id && s'.rows[o].Unfinished() && SameClass(s'.rows[o], req) ==>
                  s'.rows[o].status == Running && s'.rows[id].status == Running)
  {
    var s' := CreateUnfinished(s, newId, req, w).value;
    var id := w.GetOr(newId);
    UnfinishedKeepsKeysUnique(s, newId, req, w);
    hide ArchiveClash, HistoryKey;
    assert Owns(s', id, req.key);
  }

  /** Asking again adds no row and returns the same one. */
  lemma UnfinishedIsIdempotent(
    s: Store, newId: Id, req: Request, w: Option<Id>, again: Request, newId2: Id, w2: Option<Id>)
    requires UniqueKeys(s) && newId !in s.rows && IsWinner(s, req, w) && OwnClass(req)
    requires CreateUnfinished(s, newId, req, w).Ok?
    requires again.taskType == req.taskType && again.entity == req.entity && again.key == req.key
    requires IsWinner(CreateUnfinished(s, newId, req, w).value, again, w2)
    ensures w2 == Some(w.GetOr(newId))
    ensures var s' := CreateUnfinished(s, newId, req, w).value;
            var r := CreateUnfinished(s', newId2, again, w2);
            r.Ok? && r.value.rows.Keys == s'.rows.Keys
  {
    UnfinishedIsUnique(s, newId, req, w);
    var s', id := CreateUnfinished(s, newId, req, w).value, w.GetOr(newId);
    assert SameWork(s'.rows[id], again);
    if s'.rows[id].status == Running {
      assert Before(s'.rows[w2.value], w2.value, s'.rows[id], id);
      assert Before(s.rows[id], id, s.rows[w2.value], w2.value);
    }
  }

  /** A waiting row's due time never moves later, whatever the operation, except
      that a restart requeues a long overdue one. */
  lemma OnlyRestartDelays(s: Store, op: Op, id: Id)
    requires Enabled(s, op) && id in s.rows && s.rows[id].status == Pending && Next(s, op).rows[id].status == Pending
    requires s.rows[id].due < Next(s, op).rows[id].due
    ensures op.Requeue? && s.rows[id].due <= op.now - op.staleAfter
  {
    hide IsWinner, ArchiveClash, HistoryKey, SameWork, Quarantinable;
  }
}
