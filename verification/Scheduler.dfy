/** One scheduler pass: claim, dispatch and finish tasks one at a time. */
module Scheduler {
  import opened Base
  import opened TaskStore

  // How one turn of the loop plays out: the clock readings around it, and what
  // the handler leaves behind.  `after` is any table whatever: handlers and
  // other threads may create, reschedule, finish or remove rows.
  datatype Turn = Turn(claimAt: int, after: Store, raises: bool, finishAt: int)

  datatype Report = Report(claimed: nat, succeeded: nat, failed: nat, skipped: nat)

  // The table as the last claim saw it, and when.
  datatype LastClaim = LastClaim(table: Store, at: int)

  lemma BatchOfOne(s: Store, now: int, exclude: set<Id>, ids: seq<Id>)
    requires IsBatch(s, now, 1, exclude, ids)
    ensures ids == [] ==> forall id :: id in s.rows && s.rows[id].ClaimableAt(now) ==> id in exclude
    ensures ids != [] ==> ids[0] in s.rows && ids[0] !in exclude
  {
    if ids == [] {
      assert forall id :: id in s.rows && s.rows[id].ClaimableAt(now) && id !in exclude ==>
               Candidate(s, id, now, exclude);
    } else {
      assert Candidate(s, ids[0], now, exclude);
    }
  }

  datatype Verdict = Success | Failure | Skip

  // One dispatched task: the tables before and after its claim, the table it left,
  // and what was reported.
  datatype Step = Step(
    id: Id, taskType: string, before: Store, claimed: Store, left: Store, verdict: Result<Verdict, Error>)

  ghost function Count(steps: seq<Step>, verdict: Verdict): nat {
    if steps == [] then 0
    else Count(steps[..|steps| - 1], verdict) + if steps[|steps| - 1].verdict == Ok(verdict) then 1 else 0
  }

  // The steps follow each other in one table, from s to u.
  ghost predicate Chained(steps: seq<Step>, s: Store, u: Store) {
    && (steps == [] ==> u == s)
    && (steps != [] ==> steps[0].before == s && steps[|steps| - 1].left == u)
    && forall k :: 0 <= k < |steps| - 1 ==> steps[k + 1].before == steps[k].left
  }

  lemma ChainGrows(steps: seq<Step>, step: Step, s: Store, u: Store)
    requires Chained(steps, s, u) && step.before == u
    ensures Chained(steps + [step], s, step.left)
  {
  }

  lemma CountGrows(steps: seq<Step>, step: Step)
    ensures forall v :: Count(steps + [step], v) == Count(steps, v) + if step.verdict == Ok(v) then 1 else 0
  {
    assert (steps + [step])[..|steps|] == steps;
  }

  class TaskScheduler {
    const repository: TaskRepository
    const handled: set<string>
    const worker: string
    const leaseFor: int

    constructor (repository: TaskRepository, handled: set<string>, worker: string, leaseFor: int)
      requires worker != "" && leaseFor > 0
      ensures this.repository == repository && this.handled == handled
      ensures this.worker == worker && this.leaseFor == leaseFor
    {
      this.repository, this.handled, this.worker, this.leaseFor := repository, handled, worker, leaseFor;
    }

    /** Claims at most `limit` tasks, never one twice, each in its turn among those
        not yet processed, and judges each by what its handler left behind.  A pass
        that stops early has handled everything that was claimable at its last claim.
        The only error is a claimed row that vanished before it could be finished. */
    method RunOnce(limit: int, turns: seq<Turn>)
      returns (r: Result<Report, Error>, processed: seq<Id>, ghost last: LastClaim, ghost steps: seq<Step>)
      requires worker != "" && leaseFor > 0 && |turns| >= limit
      modifies repository
      ensures limit <= 0 <==> r == Err(ValueError)
      ensures r.Err? ==> r.error in {ValueError, KeyError}
      ensures r == Err(KeyError) ==> steps != [] && steps[|steps| - 1].verdict == Err(KeyError)
      ensures forall k :: 0 <= k < |steps| && (r.Ok? || k < |steps| - 1) ==> steps[k].verdict.Ok?
      ensures |processed| <= Max(limit, 0)
      ensures forall j, k :: 0 <= j < k < |processed| ==> processed[j] != processed[k]
      ensures r.Ok? ==> r.value.claimed == |processed| == r.value.succeeded + r.value.failed + r.value.skipped
      ensures |processed| <= |turns| && AllInOrder(steps, turns[..|processed|], processed)
      ensures r.Ok? ==> r.value.succeeded == Count(steps, Success) && r.value.failed == Count(steps, Failure)
      ensures r.Ok? ==> r.value.skipped == Count(steps, Skip)
      ensures r.Ok? && |processed| < limit ==>
                forall id :: id in last.table.rows && last.table.rows[id].ClaimableAt(last.at) ==> id in processed
      ensures r.Ok? && |processed| < limit ==> last.at == turns[|processed|].claimAt && last.table == repository.store
      ensures r.Err? || |processed| == limit ==> Chained(steps, old(repository.store), repository.store)
      ensures r.Ok? && |processed| < limit ==>
                exists s :: Chained(steps, old(repository.store), s) && last.table == Quarantine(s, last.at)
    {
      hide Claim, Finish, Quarantine, IsBatch, Judged, Claimed, Chained, AllInOrder, Count;
      processed, last, steps := [], LastClaim(repository.store, 0), [];
      ghost var start := repository.store;
      NoSteps(start);
      NoneInOrder();
      if limit <= 0 { return Err(ValueError), [], last, []; }
      var report := Report(0, 0, 0, 0);
      var n := 0;
      while n < limit
        invariant 0 <= n <= limit && |processed| == n
        invariant forall j, k :: 0 <= j < k < n ==> processed[j] != processed[k]
        invariant n == report.succeeded + report.failed + report.skipped
        invariant Chained(steps, start, repository.store) && AllInOrder(steps, turns[..n], processed)
        invariant report.succeeded == Count(steps, Success) && report.failed == Count(steps, Failure)
        invariant report.skipped == Count(steps, Skip)
        invariant |steps| == n && forall k :: 0 <= k < n ==> steps[k].verdict.Ok?
      {
        var id, outcome;
        ghost var seen, step;
        id, outcome, seen, step := TakeTurn(turns[n], processed);
        if id.None? {
          last := LastClaim(seen, turns[n].claimAt);
          return Ok(report.(claimed := n)), processed, last, steps;
        }
        ChainGrows(steps, step, start, step.before);
        CountGrows(steps, step);
        OneMoreInOrder(steps, turns[..n], processed, step, turns[n]);
        assert turns[..n + 1] == turns[..n] + [turns[n]];
        processed := processed + [id.value];
        steps := steps + [step];
        match outcome {
          case Err(e) => return Err(e), processed, last, steps;
          case Ok(Success) => report := report.(succeeded := report.succeeded + 1);
          case Ok(Failure) => report := report.(failed := report.failed + 1);
          case Ok(Skip) => report := report.(skipped := report.skipped + 1);
        }
        n := n + 1;
      }
      r := Ok(report.(claimed := n));
    }

    // Claims one task that was not processed yet, and hands it to its handler.
    method TakeTurn(turn: Turn, processed: seq<Id>)
      returns (id: Option<Id>, outcome: Result<Verdict, Error>, ghost seen: Store, ghost step: Step)
      requires worker != "" && leaseFor > 0
      modifies repository
      ensures id.None? ==> forall i :: i in seen.rows && seen.rows[i].ClaimableAt(turn.claimAt) ==> i in processed
      ensures id.None? ==> seen == repository.store == Quarantine(old(repository.store), turn.claimAt)
      ensures outcome.Err? ==> outcome.error == KeyError
      ensures id.Some? ==> id.value !in processed && step.id == id.value && step.verdict == outcome
      ensures id.Some? ==> step.before == old(repository.store) && step.left == repository.store
      ensures id.Some? ==> Judged(step, turn) && Claimed(step, turn.claimAt, processed)
    {
      hide Finish, IsBatch, Judged, InTurn, TakenFrom, Isolated;
      ghost var before := repository.store;
      seen := Quarantine(repository.store, turn.claimAt);
      var claimed := repository.ClaimDue(turn.claimAt, 1, worker, leaseFor, set i | i in processed);
      BatchOfOne(seen, turn.claimAt, (set i | i in processed), claimed.value);
      if claimed.value == [] {
        assert repository.store.rows == seen.rows;
        return None, Ok(Skip), seen, *;
      }
      var task := claimed.value[0];
      assert claimed.value == [task] && task in claimed.value;
      var taskType := repository.store.rows[task].taskType;
      ghost var claimedTable := repository.store;
      outcome := Dispatch(task, taskType, turn);
      id, step := Some(task), Step(task, taskType, before, claimedTable, repository.store, outcome);
    }

    // The claim of a step took the one row whose turn it was, and no other.
    ghost predicate Claimed(step: Step, at: int, processed: seq<Id>) {
      && InTurn(Quarantine(step.before, at), at, set i | i in processed, [step.id])
      && step.id in step.before.rows && step.claimed.rows.Keys == step.before.rows.Keys
      && TakenFrom(step.before.rows[step.id], step.claimed.rows[step.id], at, worker, leaseFor)
      && step.taskType == step.claimed.rows[step.id].taskType
      && forall o :: o in step.claimed.rows && o != step.id ==>
           step.claimed.rows[o] == Quarantine(step.before, at).rows[o]
    }

    // Step k is the claim of processed[k] in its turn, and the judgement of it.
    ghost predicate AllInOrder(steps: seq<Step>, turns: seq<Turn>, processed: seq<Id>) {
      && |steps| == |processed| == |turns|
      && forall k :: 0 <= k < |steps| ==>
           && steps[k].id == processed[k] && Judged(steps[k], turns[k])
           && Claimed(steps[k], turns[k].claimAt, processed[..k])
    }

    lemma NoneInOrder()
      ensures AllInOrder([], [], [])
    {
    }

    lemma OneMoreInOrder(steps: seq<Step>, turns: seq<Turn>, processed: seq<Id>, step: Step, turn: Turn)
      requires AllInOrder(steps, turns, processed) && Judged(step, turn) && Claimed(step, turn.claimAt, processed)
      ensures AllInOrder(steps + [step], turns + [turn], processed + [step.id])
    {
      hide Judged, Claimed;
      assert forall k :: 0 <= k < |steps| ==> (processed + [step.id])[..k] == processed[..k];
      assert (processed + [step.id])[..|steps|] == processed;
    }

    // This worker still runs the row, under a lease that has not ended.
    predicate Mine(s: Store, id: Id, at: int) {
      && id in s.rows && s.rows[id].status == Running && s.rows[id].worker == Some(worker)
      && (s.rows[id].lease.Some? ==> at < s.rows[id].lease.value)
    }

    // The verdict on a dispatched row, by what its handler left behind: an error only
    // if the row is gone; a success exactly for a handler that returned, a failure for
    // one that raised or is missing, each recorded on a row still this worker's; a
    // failure without a record if the raising handler parked the row; a skip otherwise.
    predicate Judged(step: Step, turn: Turn) {
      var returned := step.taskType in handled && !turn.raises;
      var found := if step.taskType in handled then turn.after else step.claimed;
      if step.id !in found.rows then step.verdict == Err(KeyError) && step.left == found
      else if step.taskType in handled && turn.raises && found.rows[step.id].status == Pending then
        step.verdict == Ok(Failure) && step.left == found
      else if Mine(found, step.id, turn.finishAt) then
        && step.verdict == Ok(if returned then Success else Failure)
        && OnlyRow(found, step.left, step.id)
        && var u := step.left.rows[step.id];
        && u.status == (if returned then Succeeded else Failed) && u.finishedAt == Some(turn.finishAt)
        && u.worker == None && u.lease == None
        && (u.payload, u.key, u.attempts)
           == (found.rows[step.id].payload, found.rows[step.id].key, found.rows[step.id].attempts)
      else step.verdict == Ok(Skip) && step.left == found
    }

    // Runs the handler, then records its result.
    method Dispatch(id: Id, taskType: string, turn: Turn) returns (r: Result<Verdict, Error>)
      modifies repository
      ensures r.Err? ==> r.error == KeyError
      ensures forall before ::
                Judged(Step(id, taskType, before, old(repository.store), repository.store, r), turn)
    {
      if taskType !in handled {
        var reason := "no handler for task type " + taskType;
        var done := repository.FinishTask(id, Failed, turn.finishAt, Some(reason), Some(worker));
        return Counted(done, Failure);
      }
      repository.store := turn.after;
      if turn.raises {
        if id in repository.store.rows && repository.store.rows[id].status == Pending {
          return Ok(Failure);    // rescheduled by its own handler
        }
        var done := repository.FinishTask(id, Failed, turn.finishAt, Some("handler failed"), Some(worker));
        return Counted(done, Failure);
      }
      var done := repository.FinishTask(id, Succeeded, turn.finishAt, None, Some(worker));
      r := Counted(done, Success);
    }

    // A lost lease is counted as skipped; an unknown row is an error.
    function Counted(done: Result<(), Error>, verdict: Verdict): Result<Verdict, Error> {
      match done
      case Ok(_) => Ok(verdict)
      case Err(TaskStateError) => Ok(Skip)
      case Err(_) => Err(KeyError)
    }
  }

  lemma NoSteps(s: Store)
    ensures Chained([], s, s) && forall v :: Count([], v) == 0
  {
  }
}
