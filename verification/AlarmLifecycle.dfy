/** The pure alarm state machine, and what its runs guarantee. */
module AlarmLifecycle {
  import opened Base

  datatype Reading = Violation | Normal | Unsure     // overall status of one evaluation

  datatype Life = AtRest | Verifying | InAlarm | Recovering

  // The near-limit episode carried beside the formal state.
  datatype Episode = Episode(active: bool, id: Option<nat>, since: Option<int>, reasons: seq<string>)

  const NO_EPISODE := Episode(false, None, None, [])

  datatype AlarmState = AlarmState(
    life: Life, violationAt: Option<int>, alarmAt: Option<int>, recoveryAt: Option<int>,
    alarmId: Option<nat>, taskId: Option<nat>, episode: Episode)

  const RESTING := AlarmState(AtRest, None, None, None, None, None, NO_EPISODE)

  datatype Action =
    | CreateVerifyTask(runAt: int)
    | CancelVerifyTask
    | CompleteVerifyTask
    | CreateAlarmEvent
    | UpdateAlarmEvent(alarmId: Option<nat>)
    | StartRecovery(alarmId: Option<nat>)
    | MarkAlarmRecovered(alarmId: Option<nat>)
    | NotifyPrewarning
    | NotifyPrewarningRecovery

  datatype Transition = Transition(next: AlarmState, actions: seq<Action>)

  datatype Windows = Windows(verifyAfter: int, recoveryAfter: int) {
    predicate Valid() { verifyAfter >= 0 && recoveryAfter >= 0 }
  }

  function FromNormal(w: Windows, s: AlarmState, r: Reading, now: int): Transition {
    if r != Violation then Transition(s, [])
    else Transition(RESTING.(life := Verifying, violationAt := Some(now)), [CreateVerifyTask(now + w.verifyAfter)])
  }

  function FromPending(w: Windows, s: AlarmState, r: Reading, now: int): Transition {
    match r
    case Unsure => Transition(s, [])
    case Normal => Transition(RESTING, if s.taskId.None? then [] else [CancelVerifyTask])
    case Violation =>
      var started := s.violationAt.GetOr(now);
      if now - started < w.verifyAfter then Transition(s, [])
      else Transition(
        RESTING.(life := InAlarm, violationAt := Some(started), alarmAt := Some(now)),
        (if s.taskId.None? then [] else [CompleteVerifyTask]) + [CreateAlarmEvent])
  }

  function FromAlarm(w: Windows, s: AlarmState, r: Reading, now: int): Transition {
    match r
    case Violation => Transition(s, [UpdateAlarmEvent(s.alarmId)])
    case Unsure => Transition(s, [])
    case Normal =>
      if w.recoveryAfter == 0 then Transition(RESTING, [MarkAlarmRecovered(s.alarmId)])
      else Transition(
        AlarmState(Recovering, s.violationAt, s.alarmAt, Some(now), s.alarmId, None, NO_EPISODE),
        [StartRecovery(s.alarmId)])
  }

  function FromRecovery(w: Windows, s: AlarmState, r: Reading, now: int): Transition {
    match r
    case Violation =>
      Transition(AlarmState(InAlarm, s.violationAt, s.alarmAt, None, s.alarmId, None, NO_EPISODE),
                 [UpdateAlarmEvent(s.alarmId)])
    case Unsure => Transition(s, [])
    case Normal =>
      if now - s.recoveryAt.GetOr(now) < w.recoveryAfter then Transition(s, [])
      else Transition(RESTING, [MarkAlarmRecovered(s.alarmId)])
  }

  function Apply(w: Windows, s: AlarmState, r: Reading, now: int): Transition {
    match s.life
    case AtRest => FromNormal(w, s, r, now)
    case Verifying => FromPending(w, s, r, now)
    case InAlarm => FromAlarm(w, s, r, now)
    case Recovering => FromRecovery(w, s, r, now)
  }

  // ------------------------------------------------------- runs

  // One evaluation; the ids and the episode are whatever the application layer
  // stored with the new state.
  datatype Sample = Sample(reading: Reading, now: int, alarmId: Option<nat>, taskId: Option<nat>, episode: Episode)

  function Decorate(s: AlarmState, x: Sample): AlarmState {
    s.(alarmId := x.alarmId, taskId := x.taskId, episode := x.episode)
  }

  // State before sample i of a run that starts at rest.
  function Before(w: Windows, xs: seq<Sample>, i: nat): AlarmState
    requires i <= |xs|
  {
    if i == 0 then RESTING
    else Decorate(Apply(w, Before(w, xs, i - 1), xs[i - 1].reading, xs[i - 1].now).next, xs[i - 1])
  }

  function ActionsAt(w: Windows, xs: seq<Sample>, i: nat): seq<Action>
    requires i < |xs|
  {
    Apply(w, Before(w, xs, i), xs[i].reading, xs[i].now).actions
  }

  predicate Creates(w: Windows, xs: seq<Sample>, i: nat)
    requires i < |xs|
  {
    CreateAlarmEvent in ActionsAt(w, xs, i)
  }

  predicate IsMark(a: Action) { a.MarkAlarmRecovered? }

  predicate Recovers(w: Windows, xs: seq<Sample>, i: nat)
    requires i < |xs|
  {
    exists a :: a in ActionsAt(w, xs, i) && IsMark(a)
  }

  predicate Among(xs: seq<Sample>, j: int, i: int, r: Reading)
    requires 0 <= j && i <= |xs|
  {
    exists k :: j <= k < i && xs[k].reading == r
  }

  // Sample j opened a violation window that is still open before sample i.
  ghost predicate WindowOpen(w: Windows, xs: seq<Sample>, j: nat, i: nat)
    requires i <= |xs|
  {
    && j < i && xs[j].reading == Violation && Before(w, xs, j).life == AtRest
    && !Among(xs, j, i, Normal)
    && forall k :: j < k < i && xs[k].reading == Violation ==> xs[k].now - xs[j].now < w.verifyAfter
  }

  lemma {:induction false} VerifyingIsOpenWindow(w: Windows, xs: seq<Sample>, i: nat) returns (j: nat)
    requires i <= |xs| && Before(w, xs, i).life == Verifying
    ensures WindowOpen(w, xs, j, i) && Before(w, xs, i).violationAt == Some(xs[j].now)
  {
    if Before(w, xs, i - 1).life == AtRest { j := i - 1; }
    else { j := VerifyingIsOpenWindow(w, xs, i - 1); }
  }

  lemma {:induction false} OpenWindowIsVerifying(w: Windows, xs: seq<Sample>, j: nat, i: nat)
    requires i <= |xs| && WindowOpen(w, xs, j, i)
    ensures Before(w, xs, i).life == Verifying && Before(w, xs, i).violationAt == Some(xs[j].now)
    decreases i
  {
    assert xs[i - 1].reading != Normal;
    if j < i - 1 {
      assert WindowOpen(w, xs, j, i - 1);
      OpenWindowIsVerifying(w, xs, j, i - 1);
    }
  }

  /** An alarm is created exactly by a violation that comes at least
      `verifyAfter` into a window opened by an earlier violation, with no normal
      sample in between and no earlier violation that late. */
  lemma CreatedIffVerified(w: Windows, xs: seq<Sample>, i: nat)
    requires i < |xs|
    ensures Creates(w, xs, i) <==>
              xs[i].reading == Violation
              && exists j: nat :: WindowOpen(w, xs, j, i) && xs[i].now - xs[j].now >= w.verifyAfter
    ensures Creates(w, xs, i) ==>
              exists j: nat :: WindowOpen(w, xs, j, i) && Before(w, xs, i + 1).violationAt == Some(xs[j].now)
  {
    if Before(w, xs, i).life == Verifying {
      var j := VerifyingIsOpenWindow(w, xs, i);
      forall k: nat | WindowOpen(w, xs, k, i) ensures xs[k].now == xs[j].now {
        OpenWindowIsVerifying(w, xs, k, i);
      }
    } else {
      forall k: nat ensures !WindowOpen(w, xs, k, i) {
        if WindowOpen(w, xs, k, i) { OpenWindowIsVerifying(w, xs, k, i); }
      }
    }
  }

  // Events created and recovered among the first i samples.
  ghost function Created(w: Windows, xs: seq<Sample>, i: nat): nat
    requires i <= |xs|
  {
    if i == 0 then 0 else Created(w, xs, i - 1) + if Creates(w, xs, i - 1) then 1 else 0
  }

  ghost function Recovered(w: Windows, xs: seq<Sample>, i: nat): nat
    requires i <= |xs|
  {
    if i == 0 then 0 else Recovered(w, xs, i - 1) + if Recovers(w, xs, i - 1) then 1 else 0
  }

  predicate Raised(s: AlarmState) { s.life == InAlarm || s.life == Recovering }

  lemma StepCounts(w: Windows, s: AlarmState, r: Reading, now: int)
    ensures var t := Apply(w, s, r, now);
            && (CreateAlarmEvent in t.actions <==> !Raised(s) && Raised(t.next))
            && ((exists a :: a in t.actions && IsMark(a)) <==> Raised(s) && !Raised(t.next))
  {
    var t := Apply(w, s, r, now);
    if Raised(s) && !Raised(t.next) { assert IsMark(t.actions[0]); }
  }

  /** Creations and recoveries alternate, beginning with a creation: one more
      creation exactly while the alarm is raised, equally many otherwise. */
  lemma {:induction false} CreateAndRecoverAlternate(w: Windows, xs: seq<Sample>, i: nat)
    requires i <= |xs|
    ensures Created(w, xs, i) == Recovered(w, xs, i) + if Raised(Before(w, xs, i)) then 1 else 0
    ensures i < |xs| ==> !(Creates(w, xs, i) && Recovers(w, xs, i))
    ensures i < |xs| && Creates(w, xs, i) ==> Created(w, xs, i) == Recovered(w, xs, i)
    ensures i < |xs| && Recovers(w, xs, i) ==> Created(w, xs, i) == Recovered(w, xs, i) + 1
  {
    if i > 0 {
      CreateAndRecoverAlternate(w, xs, i - 1);
      StepCounts(w, Before(w, xs, i - 1), xs[i - 1].reading, xs[i - 1].now);
    }
    if i < |xs| { StepCounts(w, Before(w, xs, i), xs[i].reading, xs[i].now); }
  }

  // Sample j, a normal one, opened a recovery window that no violation ended.
  ghost predicate Calm(w: Windows, xs: seq<Sample>, j: nat, i: nat)
    requires i <= |xs|
  {
    && j < i && xs[j].reading == Normal && Before(w, xs, j).life == InAlarm
    && !Among(xs, j, i, Violation)
    && forall k :: j < k < i && xs[k].reading == Normal ==> xs[k].now - xs[j].now < w.recoveryAfter
  }

  lemma {:induction false} RecoveringIsCalm(w: Windows, xs: seq<Sample>, i: nat) returns (j: nat)
    requires i <= |xs| && Before(w, xs, i).life == Recovering
    ensures Calm(w, xs, j, i) && Before(w, xs, i).recoveryAt == Some(xs[j].now)
  {
    if Before(w, xs, i - 1).life == InAlarm { j := i - 1; }
    else { j := RecoveringIsCalm(w, xs, i - 1); }
  }

  lemma {:induction false} CalmIsRecovering(w: Windows, xs: seq<Sample>, j: nat, i: nat)
    requires i <= |xs| && w.recoveryAfter > 0 && Calm(w, xs, j, i)
    ensures Before(w, xs, i).life == Recovering && Before(w, xs, i).recoveryAt == Some(xs[j].now)
    decreases i
  {
    assert xs[i - 1].reading != Violation;
    if j < i - 1 {
      assert Calm(w, xs, j, i - 1);
      CalmIsRecovering(w, xs, j, i - 1);
    }
  }

  /** With a positive recovery window, a recovery is marked exactly by a normal
      sample at least `recoveryAfter` into a violation-free stretch that a normal
      sample began in the alarm, and by no earlier normal sample of it. */
  lemma RecoveredIffCalm(w: Windows, xs: seq<Sample>, i: nat)
    requires i < |xs| && w.recoveryAfter > 0
    ensures Recovers(w, xs, i) <==>
              xs[i].reading == Normal
              && exists j: nat :: Calm(w, xs, j, i) && xs[i].now - xs[j].now >= w.recoveryAfter
  {
    StepCounts(w, Before(w, xs, i), xs[i].reading, xs[i].now);
    if Before(w, xs, i).life == Recovering {
      var j := RecoveringIsCalm(w, xs, i);
      forall k: nat | Calm(w, xs, k, i) ensures xs[k].now == xs[j].now {
        CalmIsRecovering(w, xs, k, i);
      }
    } else {
      forall k: nat ensures !Calm(w, xs, k, i) {
        if Calm(w, xs, k, i) { CalmIsRecovering(w, xs, k, i); }
      }
    }
  }

  // Events created and not yet recovered before sample i: one or none.
  ghost predicate Outstanding(w: Windows, xs: seq<Sample>, i: nat)
    requires i <= |xs|
  {
    Created(w, xs, i) == Recovered(w, xs, i) + 1
  }

  /** While an event is outstanding every violation updates it and keeps the alarm on;
      at no other time is one updated; whatever is asked for an event names it; and an
      undecided sample changes nothing. */
  lemma UpdatedIffViolatedAgain(w: Windows, xs: seq<Sample>, i: nat)
    requires i < |xs|
    ensures UpdateAlarmEvent(Before(w, xs, i).alarmId) in ActionsAt(w, xs, i) <==>
              Outstanding(w, xs, i) && xs[i].reading == Violation
    ensures UpdateAlarmEvent(Before(w, xs, i).alarmId) in ActionsAt(w, xs, i) ==>
              Before(w, xs, i + 1).life == InAlarm && Outstanding(w, xs, i + 1)
    ensures forall a :: a in ActionsAt(w, xs, i)
                        && (a.UpdateAlarmEvent? || a.StartRecovery? || a.MarkAlarmRecovered?) ==>
              a.alarmId == Before(w, xs, i).alarmId && Outstanding(w, xs, i)
    ensures xs[i].reading == Unsure ==>
              ActionsAt(w, xs, i) == [] && Before(w, xs, i + 1) == Decorate(Before(w, xs, i), xs[i])
  {
    CreateAndRecoverAlternate(w, xs, i);
    CreateAndRecoverAlternate(w, xs, i + 1);
  }

  /** A window's task is asked for exactly by the violation that opens the window, is
      cancelled by the normal sample that ends it early and completed by the creation;
      a recovery window starts exactly with a normal sample in the alarm. */
  lemma WindowActions(w: Windows, xs: seq<Sample>, i: nat)
    requires i < |xs|
    ensures forall t :: CreateVerifyTask(t) in ActionsAt(w, xs, i) <==>
              Before(w, xs, i).life == AtRest && xs[i].reading == Violation && t == xs[i].now + w.verifyAfter
    ensures CancelVerifyTask in ActionsAt(w, xs, i) <==>
              Before(w, xs, i).taskId.Some? && xs[i].reading == Normal && exists j: nat :: WindowOpen(w, xs, j, i)
    ensures CompleteVerifyTask in ActionsAt(w, xs, i) <==> Before(w, xs, i).taskId.Some? && Creates(w, xs, i)
    ensures StartRecovery(Before(w, xs, i).alarmId) in ActionsAt(w, xs, i) <==>
              Before(w, xs, i).life == InAlarm && xs[i].reading == Normal && w.recoveryAfter != 0
    ensures w.recoveryAfter == 0 && Before(w, xs, i).life == InAlarm && xs[i].reading == Normal ==> Recovers(w, xs, i)
  {
    if Before(w, xs, i).life == Verifying { var j := VerifyingIsOpenWindow(w, xs, i); }
    else {
      forall k: nat ensures !WindowOpen(w, xs, k, i) {
        if WindowOpen(w, xs, k, i) { OpenWindowIsVerifying(w, xs, k, i); }
      }
    }
    assert Before(w, xs, i).life == InAlarm && xs[i].reading == Normal && w.recoveryAfter == 0 ==>
        IsMark(ActionsAt(w, xs, i)[0]);
  }

  lemma TimesStay(w: Windows, s: AlarmState, r: Reading, now: int)
    ensures var u := Apply(w, s, r, now).next;
            && (Raised(s) && Raised(u) ==> u.alarmAt == s.alarmAt && u.violationAt == s.violationAt)
            && (!Raised(s) && Raised(u) ==> u.alarmAt == Some(now))
  {
  }

  /** A raised alarm carries the time of the sample that created its event and the start
      of the window that led there, through recovery windows that came to nothing. */
  lemma {:induction false} AlarmKeepsItsTimes(w: Windows, xs: seq<Sample>, i: nat) returns (j: nat)
    requires i <= |xs| && Outstanding(w, xs, i)
    ensures j < i && Creates(w, xs, j) && (forall k :: j < k < i ==> !Recovers(w, xs, k))
    ensures Before(w, xs, i).alarmAt == Some(xs[j].now)
    ensures Before(w, xs, i).violationAt == Before(w, xs, j + 1).violationAt
  {
    hide Apply;
    CreateAndRecoverAlternate(w, xs, i);
    CreateAndRecoverAlternate(w, xs, i - 1);
    StepCounts(w, Before(w, xs, i - 1), xs[i - 1].reading, xs[i - 1].now);
    TimesStay(w, Before(w, xs, i - 1), xs[i - 1].reading, xs[i - 1].now);
    if Raised(Before(w, xs, i - 1)) { j := AlarmKeepsItsTimes(w, xs, i - 1); }
    else { j := i - 1; }
  }
}
