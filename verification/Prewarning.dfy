/**
 Compliance of one sample, the advisory near-limit warning beside it, and the
 warning episode that rides along with the formal alarm state.
 */
module Prewarning {
  import opened Base
  import opened AlarmLifecycle
  import Standards

  // ------------------------------------------------------- rounding

  // To one decimal, halves away from zero.
  function RoundTenth(v: real): real {
    if v >= 0.0 then (v * 10.0 + 0.5).Floor as real / 10.0 else -((-v * 10.0 + 0.5).Floor as real / 10.0)
  }

  // The tenths around a value: the closest one, the outer one on a tie.
  predicate IsNearestTenth(v: real, n: int) {
    var r := n as real / 10.0;
    if v >= 0.0 then r - 0.05 <= v < r + 0.05 else r - 0.05 < v <= r + 0.05
  }

  function Tenths(v: real): int { if v >= 0.0 then (v * 10.0 + 0.5).Floor else -(-v * 10.0 + 0.5).Floor }

  lemma NearestTenthIsUnique(v: real, n: int, m: int)
    requires IsNearestTenth(v, n) && IsNearestTenth(v, m)
    ensures n == m
  {
    assert n as real - m as real < 1.0 && m as real - n as real < 1.0;
  }

  lemma TenthsAreNearest(v: real)
    ensures IsNearestTenth(v, Tenths(v)) && RoundTenth(v) == Tenths(v) as real / 10.0
  {
    var u := if v >= 0.0 then v * 10.0 + 0.5 else -v * 10.0 + 0.5;
    assert u.Floor as real <= u < u.Floor as real + 1.0;
  }

  /** Rounding yields the one nearest tenth, the outer one on a tie. */
  lemma RoundIsNearestTenth(v: real, n: int)
    ensures RoundTenth(v) == n as real / 10.0 <==> IsNearestTenth(v, n)
  {
    TenthsAreNearest(v);
    hide RoundTenth, Tenths;
    if IsNearestTenth(v, n) { NearestTenthIsUnique(v, n, Tenths(v)); }
    if RoundTenth(v) == n as real / 10.0 { assert n as real == Tenths(v) as real; }
  }

  // ------------------------------------------------------- evaluation

  datatype Value = Number(v: real) | Absent | Garbage

  datatype Quality = Good | Offline | MissingData | BadData

  datatype OperationStatus = Operating | Idle | NoOperation

  datatype Applicability = Applicable | NotApplicable | NoStandard

  // `declared` is what the sample says of its own quality, if anything.
  datatype Measurement = Measurement(temperature: Value, humidity: Value, declared: Option<Quality>)

  datatype DimensionStatus = Within | Low | High | Undecided

  datatype Dimension = Temperature | Humidity

  datatype Direction = Lower | Upper

  datatype Limit = Limit(dimension: Dimension, direction: Direction)

  const LIMITS := [Limit(Temperature, Lower), Limit(Temperature, Upper), Limit(Humidity, Lower), Limit(Humidity, Upper)]

  function Reason(l: Limit): string {
    match l
    case Limit(Temperature, Lower) => "temperature_low_near_limit"
    case Limit(Temperature, Upper) => "temperature_high_near_limit"
    case Limit(Humidity, Lower) => "humidity_low_near_limit"
    case Limit(Humidity, Upper) => "humidity_high_near_limit"
  }

  lemma ReasonsDiffer(a: Limit, b: Limit)
    requires Reason(a) == Reason(b)
    ensures a == b
  {
    assert Reason(a)[0] == Reason(b)[0] && |Reason(a)| == |Reason(b)|;
  }

  datatype Margins = Margins(temperature: real, humidity: real, temperatureExit: real, humidityExit: real) {
    function Entry(d: Dimension): real { if d == Temperature then temperature else humidity }
    function Exit(d: Dimension): real { if d == Temperature then temperatureExit else humidityExit }
  }

  function ValueOf(x: Measurement, d: Dimension): Value { if d == Temperature then x.temperature else x.humidity }

  function BoundsOf(st: Standards.Standard, d: Dimension): Option<Standards.Bounds> {
    if d == Temperature then st.temperature else st.humidity
  }

  function EvaluateDimension(v: Value, b: Option<Standards.Bounds>): DimensionStatus {
    if b.None? then Within
    else if !v.Number? then Undecided
    else if RoundTenth(v.v) < b.value.low then Low
    else if RoundTenth(v.v) > b.value.high then High
    else Within
  }

  function QualityOf(x: Measurement, st: Option<Standards.Standard>): Quality {
    if x.declared.Some? then x.declared.value
    else if st.None? then Good
    else if st.value.temperature.Some? && !x.temperature.Number? then Unreadable(x.temperature)
    else if st.value.humidity.Some? && !x.humidity.Number? then Unreadable(x.humidity)
    else Good
  }

  function Unreadable(v: Value): Quality { if v == Absent then MissingData else BadData }

  function ApplicabilityOf(st: Option<Standards.Standard>, op: Option<OperationStatus>): Applicability {
    if st.None? then NoStandard
    else match st.value.control
      case None => NotApplicable
      case Some(control) =>
        if op == Some(NoOperation) then (if control == Standards.AllDay then Applicable else NotApplicable)
        else if control == Standards.MonitorOnly then NotApplicable
        else if control == Standards.OperationPeriod && op != Some(Operating) then NotApplicable
        else Applicable
  }

  function Overall(x: Measurement, st: Option<Standards.Standard>, op: Option<OperationStatus>): Reading {
    if ApplicabilityOf(st, op) != Applicable || QualityOf(x, st) != Good then Unsure
    else
      var t := EvaluateDimension(x.temperature, st.value.temperature);
      var h := EvaluateDimension(x.humidity, st.value.humidity);
      if t in {Low, High} || h in {Low, High} then Violation
      else if t == Undecided || h == Undecided then Unsure
      else Normal
  }

  // The value's nearest tenth is below the lower or above the upper limit.
  ghost predicate Outside(v: Value, b: Option<Standards.Bounds>) {
    v.Number? && b.Some? && exists n :: IsNearestTenth(v.v, n) && !(b.value.low <= n as real / 10.0 <= b.value.high)
  }

  // Unlimited, or a number whose nearest tenth is between the limits.
  ghost predicate Inside(v: Value, b: Option<Standards.Bounds>) {
    b.None? || (v.Number? && exists n :: IsNearestTenth(v.v, n) && b.value.low <= n as real / 10.0 <= b.value.high)
  }

  // The standard is monitored now and the sample can be trusted.
  predicate IsJudged(x: Measurement, st: Option<Standards.Standard>, op: Option<OperationStatus>) {
    && st.Some?
    && (|| st.value.control == Some(Standards.AllDay)
        || (st.value.control == Some(Standards.OperationPeriod) && op == Some(Operating)))
    && (|| x.declared == Some(Good)
        || (&& x.declared.None? && (st.value.temperature.Some? ==> x.temperature.Number?)
            && (st.value.humidity.Some? ==> x.humidity.Number?)))
  }

  lemma DimensionByTenths(v: Value, b: Option<Standards.Bounds>)
    ensures EvaluateDimension(v, b) in {Low, High} <==> Outside(v, b)
    ensures EvaluateDimension(v, b) == Within <==> Inside(v, b)
  {
    if v.Number? && b.Some? {
      TenthsAreNearest(v.v);
      hide RoundTenth, Tenths, IsNearestTenth;
      forall n | IsNearestTenth(v.v, n) ensures n == Tenths(v.v) { NearestTenthIsUnique(v.v, n, Tenths(v.v)); }
    }
  }

  /** A sample is a violation exactly when it is judged and a limited value, to the
      nearest tenth, lies outside its limits, whatever the other value is; it is
      normal exactly when it is judged and every limited value lies inside. */
  lemma ViolationIsOutside(x: Measurement, st: Option<Standards.Standard>, op: Option<OperationStatus>)
    ensures Overall(x, st, op) == Violation <==>
              && IsJudged(x, st, op)
              && (Outside(x.temperature, st.value.temperature) || Outside(x.humidity, st.value.humidity))
    ensures Overall(x, st, op) == Normal <==>
              && IsJudged(x, st, op)
              && Inside(x.temperature, st.value.temperature) && Inside(x.humidity, st.value.humidity)
  {
    if st.Some? {
      DimensionByTenths(x.temperature, st.value.temperature);
      DimensionByTenths(x.humidity, st.value.humidity);
      hide EvaluateDimension, Outside, Inside;
    }
  }

  // Distance of the rounded value from a limit, on the allowed side of it.
  function Distance(x: Measurement, st: Standards.Standard, l: Limit): Option<real> {
    var v, b := ValueOf(x, l.dimension), BoundsOf(st, l.dimension);
    if !v.Number? || b.None? then None
    else if l.direction == Lower then
      (if RoundTenth(v.v) >= b.value.low then Some(RoundTenth(v.v) - b.value.low) else None)
    else
      (if RoundTenth(v.v) <= b.value.high then Some(b.value.high - RoundTenth(v.v)) else None)
  }

  function Effective(margin: real): real { (if margin > 0.0 then margin else 0.0) + 0.000000001 }

  predicate IsWithin(x: Measurement, st: Standards.Standard, l: Limit, margin: real) {
    Distance(x, st, l).Some? && Distance(x, st, l).value <= Effective(margin)
  }

  // Entering takes the entry margin, staying the exit margin.
  predicate Near(x: Measurement, st: Standards.Standard, l: Limit, previous: seq<string>, m: Margins) {
    IsWithin(x, st, l, if Reason(l) in previous then m.Exit(l.dimension) else m.Entry(l.dimension))
  }

  function NearReasons(
    x: Measurement, st: Standards.Standard, limits: seq<Limit>, previous: seq<string>, m: Margins): seq<string>
  {
    if limits == [] then []
    else
      var n := |limits| - 1;
      NearReasons(x, st, limits[..n], previous, m)
      + ReasonIf(x, st, limits[n], previous, m)
  }

  function Warnings(
    x: Measurement, st: Option<Standards.Standard>, op: Option<OperationStatus>, previous: seq<string>, m: Margins)
    : seq<string>
  {
    if Overall(x, st, op) != Normal then [] else NearReasons(x, st.value, LIMITS, previous, m)
  }

  /** The warning loop: both dimensions, the lower limit before the upper one. */
  method EvaluatePrewarning(
    x: Measurement, st: Option<Standards.Standard>, applicability: Applicability, quality: Quality,
    overall: Reading, previous: seq<string>, m: Margins) returns (reasons: seq<string>)
    requires applicability == Applicable ==> st.Some?
    ensures reasons == if applicability == Applicable && quality == Good && overall == Normal
                       then NearReasons(x, st.value, LIMITS, previous, m) else []
  {
    hide NearReasons, RoundTenth, Effective, Reason;
    reasons := [];
    if st.None? || applicability != Applicable || quality != Good || overall != Normal { return; }
    NoReasons(x, st.value, previous, m);
    for n := 0 to 2
      invariant reasons == NearReasons(x, st.value, LIMITS[..2 * n], previous, m)
    {
      var d := if n == 0 then Temperature else Humidity;
      assert LIMITS[..2 * n + 2] == LIMITS[..2 * n] + [Limit(d, Lower)] + [Limit(d, Upper)];
      OneMoreReason(x, st.value, LIMITS[..2 * n], Limit(d, Lower), previous, m);
      OneMoreReason(x, st.value, LIMITS[..2 * n] + [Limit(d, Lower)], Limit(d, Upper), previous, m);
      var more := CheckDimension(x, st.value, d, previous, m);
      reasons := reasons + more;
    }
    assert LIMITS[..4] == LIMITS;
  }

  method CheckDimension(x: Measurement, st: Standards.Standard, d: Dimension, previous: seq<string>, m: Margins)
    returns (reasons: seq<string>)
    ensures reasons == ReasonIf(x, st, Limit(d, Lower), previous, m) + ReasonIf(x, st, Limit(d, Upper), previous, m)
  {
    ghost var low := ReasonIf(x, st, Limit(d, Lower), previous, m);
    hide RoundTenth, Effective, Reason, Distance;
    reasons := [];
    for n := 0 to 2
      invariant n == 0 ==> reasons == []
      invariant n == 1 ==> reasons == low
      invariant n == 2 ==> reasons == low + ReasonIf(x, st, Limit(d, Upper), previous, m)
    {
      var l := Limit(d, if n == 0 then Lower else Upper);
      var distance := Distance(x, st, l);
      if distance.Some? {
        var threshold := if Reason(l) in previous then m.Exit(d) else m.Entry(d);
        if distance.value <= Effective(threshold) { reasons := reasons + [Reason(l)]; }
      }
    }
  }

  function ReasonIf(x: Measurement, st: Standards.Standard, l: Limit, previous: seq<string>, m: Margins): seq<string> {
    if Near(x, st, l, previous, m) then [Reason(l)] else []
  }

  lemma NoReasons(x: Measurement, st: Standards.Standard, previous: seq<string>, m: Margins)
    ensures NearReasons(x, st, [], previous, m) == []
  {
  }

  lemma OneMoreReason(
    x: Measurement, st: Standards.Standard, limits: seq<Limit>, l: Limit, previous: seq<string>, m: Margins)
    ensures NearReasons(x, st, limits + [l], previous, m)
         == NearReasons(x, st, limits, previous, m) + ReasonIf(x, st, l, previous, m)
  {
    assert (limits + [l])[..|limits|] == limits;
    hide Near;
  }

  lemma {:induction false} ReasonListed(
    x: Measurement, st: Standards.Standard, limits: seq<Limit>, previous: seq<string>, m: Margins, l: Limit)
    ensures Reason(l) in NearReasons(x, st, limits, previous, m) <==> l in limits && Near(x, st, l, previous, m)
  {
    if limits != [] {
      var n := |limits| - 1;
      ReasonListed(x, st, limits[..n], previous, m, l);
      assert limits == limits[..n] + [limits[n]];
      if Reason(l) == Reason(limits[n]) { ReasonsDiffer(l, limits[n]); }
    }
  }

  // A reason is given exactly when the sample is compliant and near that limit.
  lemma WarnsExactlyNear(
    x: Measurement, st: Option<Standards.Standard>, op: Option<OperationStatus>, previous: seq<string>, m: Margins,
    l: Limit)
    ensures Reason(l) in Warnings(x, st, op, previous, m) <==>
              Overall(x, st, op) == Normal && Near(x, st.value, l, previous, m)
  {
    assert LIMITS[0] == Limit(Temperature, Lower) && LIMITS[1] == Limit(Temperature, Upper);
    assert LIMITS[2] == Limit(Humidity, Lower) && LIMITS[3] == Limit(Humidity, Upper);
    assert l in LIMITS by {
      assert l == LIMITS[(if l.dimension == Temperature then 0 else 2) + if l.direction == Lower then 0 else 1];
    }
    if Overall(x, st, op) == Normal { ReasonListed(x, st.value, LIMITS, previous, m, l); }
  }

  // The value's nearest tenth is on the allowed side of the limit, no further from it
  // than the margin; a margin below zero counts as zero.
  ghost predicate Close(v: Value, limit: real, below: bool, margin: real) {
    && v.Number?
    && exists n :: IsNearestTenth(v.v, n) &&
         var gap := if below then n as real / 10.0 - limit else limit - n as real / 10.0;
         0.0 <= gap && (gap <= 0.000000001 || gap <= margin + 0.000000001)
  }

  /** The four warnings, each by its own limit, value and pair of margins: the exit
      margin while the warning is already on, the entry margin otherwise. */
  lemma NearByNumbers(x: Measurement, st: Standards.Standard, previous: seq<string>, m: Margins)
    ensures Near(x, st, Limit(Temperature, Lower), previous, m) <==>
              && st.temperature.Some?
              && Close(x.temperature, st.temperature.value.low, true,
                       if "temperature_low_near_limit" in previous then m.temperatureExit else m.temperature)
    ensures Near(x, st, Limit(Temperature, Upper), previous, m) <==>
              && st.temperature.Some?
              && Close(x.temperature, st.temperature.value.high, false,
                       if "temperature_high_near_limit" in previous then m.temperatureExit else m.temperature)
    ensures Near(x, st, Limit(Humidity, Lower), previous, m) <==>
              && st.humidity.Some?
              && Close(x.humidity, st.humidity.value.low, true,
                       if "humidity_low_near_limit" in previous then m.humidityExit else m.humidity)
    ensures Near(x, st, Limit(Humidity, Upper), previous, m) <==>
              && st.humidity.Some?
              && Close(x.humidity, st.humidity.value.high, false,
                       if "humidity_high_near_limit" in previous then m.humidityExit else m.humidity)
  {
    hide RoundTenth, IsNearestTenth, Tenths, Effective, Close, Distance;
    forall l: Limit, margin: real | BoundsOf(st, l.dimension).Some?
      ensures IsWithin(x, st, l, margin) <==>
                Close(ValueOf(x, l.dimension), LimitOf(st, l), l.direction == Lower, margin)
    {
      WithinByNumbers(x, st, l, margin);
    }
    assert forall l: Limit, margin: real :: BoundsOf(st, l.dimension).None? ==> !IsWithin(x, st, l, margin) by {
      NoLimitNoWarning(x, st);
    }
  }

  function LimitOf(st: Standards.Standard, l: Limit): real
    requires BoundsOf(st, l.dimension).Some?
  {
    var b := BoundsOf(st, l.dimension).value;
    if l.direction == Lower then b.low else b.high
  }

  lemma NoLimitNoWarning(x: Measurement, st: Standards.Standard)
    ensures forall l: Limit, margin: real :: BoundsOf(st, l.dimension).None? ==> !IsWithin(x, st, l, margin)
  {
  }

  lemma WithinByNumbers(x: Measurement, st: Standards.Standard, l: Limit, margin: real)
    requires BoundsOf(st, l.dimension).Some?
    ensures IsWithin(x, st, l, margin) <==>
              Close(ValueOf(x, l.dimension), LimitOf(st, l), l.direction == Lower, margin)
  {
    var v := ValueOf(x, l.dimension);
    if v.Number? {
      TenthsAreNearest(v.v);
      hide RoundTenth, Tenths, IsNearestTenth;
      forall n | IsNearestTenth(v.v, n) ensures n == Tenths(v.v) { NearestTenthIsUnique(v.v, n, Tenths(v.v)); }
    }
  }

  lemma {:induction false} WarningsAreReasons(
    x: Measurement, st: Standards.Standard, limits: seq<Limit>, previous: seq<string>, m: Margins)
    requires forall l :: l in limits ==> !Near(x, st, l, previous, m)
    ensures NearReasons(x, st, limits, previous, m) == []
  {
    if limits != [] { WarningsAreReasons(x, st, limits[..|limits| - 1], previous, m); }
  }

  // ------------------------------------------------------- the episode

  // One evaluation of a device; `blocked` says an unclosed event forbids warnings.
  datatype Input = Input(x: Measurement, st: Option<Standards.Standard>, op: Option<OperationStatus>, m: Margins,
                         now: int, blocked: bool, newId: nat, alarmId: Option<nat>, taskId: Option<nat>)

  function Previous(s: AlarmState): seq<string> { if s.episode.active then s.episode.reasons else [] }

  function Reasons(s: AlarmState, i: Input): seq<string> { Warnings(i.x, i.st, i.op, Previous(s), i.m) }

  function ReadingOf(i: Input): Reading { Overall(i.x, i.st, i.op) }

  function Warn(prev: AlarmState, t: Transition, i: Input): Transition {
    var e := prev.episode;
    if ReadingOf(i) == Violation || t.next.life != AtRest then
      if e.active then t.(next := t.next.(episode := e.(active := false))) else t
    else if ReadingOf(i) != Normal then
      if ApplicabilityOf(i.st, i.op) == NotApplicable && e.active
      then t.(next := t.next.(episode := t.next.episode.(active := false, reasons := []))) else t
    else if (Reasons(prev, i) != [] || e.active) && i.blocked then t.(next := t.next.(episode := NO_EPISODE))
    else if Reasons(prev, i) != [] then
      var since := if e.id.Some? && e.since.Some? then e.since else Some(i.now);
      Transition(t.next.(episode := Episode(true, Some(e.id.GetOr(i.newId)), since, Reasons(prev, i))),
                 if e.active then t.actions else t.actions + [NotifyPrewarning])
    else if e.active then
      Transition(t.next.(episode := NO_EPISODE), t.actions + [NotifyPrewarningRecovery])
    else t
  }

  function Formal(w: Windows, s: AlarmState, i: Input): Transition { Apply(w, s, ReadingOf(i), i.now) }

  function Whole(w: Windows, s: AlarmState, i: Input): Transition { Warn(s, Formal(w, s, i), i) }

  function Step(w: Windows, s: AlarmState, i: Input): AlarmState {
    Whole(w, s, i).next.(alarmId := i.alarmId, taskId := i.taskId)
  }

  function After(w: Windows, s: AlarmState, xs: seq<Input>): AlarmState {
    if xs == [] then s else Step(w, After(w, s, xs[..|xs| - 1]), xs[|xs| - 1])
  }

  function ActionsOf(w: Windows, s: AlarmState, xs: seq<Input>, k: nat): seq<Action>
    requires k < |xs|
  {
    Whole(w, After(w, s, xs[..k]), xs[k]).actions
  }

  predicate Sane(s: AlarmState) {
    s.episode.active ==> s.life == AtRest && s.episode.id.Some? && s.episode.since.Some? && s.episode.reasons != []
  }

  // ------------------------------------------------------- every run

  /** An active episode belongs to a device at rest and has an identity, a start
      and a reason; a notification marks its activation, a recovery notice its end. */
  lemma StepKeepsSane(w: Windows, s: AlarmState, i: Input)
    requires Sane(s)
    ensures Sane(Step(w, s, i))
    ensures NotifyPrewarning in Whole(w, s, i).actions <==> !s.episode.active && Step(w, s, i).episode.active
    ensures NotifyPrewarningRecovery in Whole(w, s, i).actions ==>
              s.episode.active && Step(w, s, i).episode == NO_EPISODE && ReadingOf(i) == Normal && Reasons(s, i) == []
    ensures s.episode.active && Step(w, s, i).episode.active ==>
              Step(w, s, i).episode.id == s.episode.id && Step(w, s, i).episode.since == s.episode.since
  {
    hide Warnings;
  }

  /** What each kind of sample does to the episode.  A breach or a raised alarm only
      switches it off; an unclosed event ends it without a word; a compliant sample
      sets it to its reasons, keeping identity and start of an episode that was
      interrupted, or ends it with a notice; an undecided one leaves it alone unless
      the standard does not apply now. */
  lemma EpisodeFollowsSample(w: Windows, s: AlarmState, i: Input)
    ensures var t, u, e := Formal(w, s, i), Whole(w, s, i), s.episode;
            var atRest := t.next.life == AtRest;
            && u.next == t.next.(episode := u.next.episode) && t.actions <= u.actions
            && (ReadingOf(i) == Violation || !atRest ==> !u.next.episode.active && u.actions == t.actions)
            && ((ReadingOf(i) == Violation || !atRest) && e.active ==>
                  u.next.episode == Episode(false, e.id, e.since, e.reasons))
            && (ReadingOf(i) == Normal && atRest && i.blocked ==>
                  !u.next.episode.active && u.actions == t.actions
                  && (e.active || Reasons(s, i) != [] ==> u.next.episode == Episode(false, None, None, [])))
            && (ReadingOf(i) == Normal && atRest && !i.blocked ==>
                  && (u.next.episode.active <==> Reasons(s, i) != [])
                  && (NotifyPrewarning in u.actions <==> Reasons(s, i) != [] && !e.active)
                  && (NotifyPrewarningRecovery in u.actions <==> Reasons(s, i) == [] && e.active)
                  && (Reasons(s, i) != [] ==>
                        && u.next.episode.reasons == Reasons(s, i)
                        && u.next.episode.id == (if e.id.Some? then e.id else Some(i.newId))
                        && u.next.episode.since == (if e.id.Some? && e.since.Some? then e.since else Some(i.now)))
                  && (Reasons(s, i) == [] && e.active ==> u.next.episode == Episode(false, None, None, [])))
            && (ReadingOf(i) == Unsure && atRest ==>
                  && u.actions == t.actions
                  && (NotApplicableNow(i) && e.active ==> u.next.episode == Episode(false, e.id, e.since, []))
                  && (!NotApplicableNow(i) || !e.active ==> u.next == t.next))
  {
    hide Warnings;
  }

  // There is a standard, but it is not monitored now.
  predicate NotApplicableNow(i: Input) {
    && i.st.Some?
    && i.st.value.control != Some(Standards.AllDay)
    && !(i.st.value.control == Some(Standards.OperationPeriod) && i.op == Some(Operating))
  }

  lemma {:induction false} ActiveMeansAtRest(w: Windows, s: AlarmState, xs: seq<Input>)
    requires Sane(s)
    ensures Sane(After(w, s, xs))
  {
    hide Step;
    if xs != [] {
      ActiveMeansAtRest(w, s, xs[..|xs| - 1]);
      StepKeepsSane(w, After(w, s, xs[..|xs| - 1]), xs[|xs| - 1]);
    }
  }

  // The formal run behind a run of evaluations.
  function FormalRun(w: Windows, xs: seq<Input>): (r: seq<Sample>)
    ensures |r| == |xs|
  {
    if xs == [] then []
    else
      var i := xs[|xs| - 1];
      FormalRun(w, xs[..|xs| - 1]) + [Sample(ReadingOf(i), i.now, i.alarmId, i.taskId, After(w, RESTING, xs).episode)]
  }

  lemma {:induction false} BeforeIgnoresLater(w: Windows, xs: seq<Sample>, x: Sample, i: nat)
    requires i <= |xs|
    ensures Before(w, xs + [x], i) == Before(w, xs, i)
  {
    if i > 0 { BeforeIgnoresLater(w, xs, x, i - 1); }
  }

  /** The advisory episode never influences the formal state: whole states are the
      formal run's states, whatever the warnings did. */
  lemma {:induction false} FormalStateIsIndependent(w: Windows, xs: seq<Input>)
    ensures After(w, RESTING, xs) == Before(w, FormalRun(w, xs), |xs|)
  {
    if xs != [] {
      var n := |xs| - 1;
      FormalStateIsIndependent(w, xs[..n]);
      var r := FormalRun(w, xs[..n]);
      BeforeIgnoresLater(w, r, FormalRun(w, xs)[n], n);
      assert FormalRun(w, xs) == r + [FormalRun(w, xs)[n]];
      hide Overall, ApplicabilityOf, Warnings;
    }
  }

  // Violations that are still being verified.
  ghost predicate Suspends(w: Windows, s: AlarmState, xs: seq<Input>) {
    forall k :: 0 < k <= |xs| ==> After(w, s, xs[..k]).life == Verifying
  }

  /** A breach that is over before it becomes an alarm keeps the episode: the
      warning that follows has the same identity and start. */
  lemma {:induction false} BreachKeepsEpisode(w: Windows, s: AlarmState, xs: seq<Input>)
    requires Sane(s) && s.episode.active && xs != [] && Suspends(w, s, xs)
    ensures After(w, s, xs).episode == s.episode.(active := false)
    ensures forall i: Input :: ReadingOf(i) == Normal && !i.blocked && Step(w, After(w, s, xs), i).episode.active ==>
              Step(w, After(w, s, xs), i).episode.id == s.episode.id
              && Step(w, After(w, s, xs), i).episode.since == s.episode.since
  {
    var n := |xs| - 1;
    assert xs[..n + 1] == xs;
    assert After(w, s, xs).life == Verifying;
    if n > 0 {
      forall k | 0 < k <= n ensures After(w, s, xs[..n][..k]).life == Verifying { assert xs[..n][..k] == xs[..k]; }
      BreachKeepsEpisode(w, s, xs[..n]);
      assert After(w, s, xs[..n]).life == Verifying by { assert xs[..n][..n] == xs[..n]; }
    } else {
      assert xs[..n] == [];
    }
  }

  // ------------------------------------------------------- staying near one limit

  // A compliant, unblocked sample within the exit margin of the limit.
  predicate InBand(i: Input, l: Limit, m: Margins) {
    && i.m == m && !i.blocked && ReadingOf(i) == Normal && IsWithin(i.x, i.st.value, l, m.Exit(l.dimension))
  }

  predicate CanWarn(s: AlarmState) { s.life == AtRest || s.life == Verifying }

  // One sample in the band of a limit that is already a reason.
  lemma HeldReasonStays(w: Windows, s: AlarmState, i: Input, l: Limit)
    requires Sane(s) && s.episode.active && Reason(l) in s.episode.reasons && InBand(i, l, i.m)
    ensures var e := Step(w, s, i).episode;
            e.active && Reason(l) in e.reasons && e.id == s.episode.id && e.since == s.episode.since
            && NotifyPrewarning !in Whole(w, s, i).actions && NotifyPrewarningRecovery !in Whole(w, s, i).actions
  {
    WarnsExactlyNear(i.x, i.st, i.op, Previous(s), i.m, l);
    StepKeepsSane(w, s, i);
    hide Warnings;
  }

  // No notice of either kind from sample `from` on.
  predicate Quiet(w: Windows, s: AlarmState, xs: seq<Input>, from: nat) {
    forall k :: from <= k < |xs| ==>
      NotifyPrewarning !in ActionsOf(w, s, xs, k) && NotifyPrewarningRecovery !in ActionsOf(w, s, xs, k)
  }

  /** Once a limit is a reason of the active episode, a run that stays within its
      exit margin keeps the one episode: no notification and no recovery notice. */
  lemma {:induction false} BandKeepsEpisode(w: Windows, s: AlarmState, xs: seq<Input>, l: Limit, m: Margins)
    requires Sane(s) && s.episode.active && Reason(l) in s.episode.reasons
    requires forall k :: 0 <= k < |xs| ==> InBand(xs[k], l, m)
    ensures var e := After(w, s, xs).episode;
            && Sane(After(w, s, xs)) && e.active && Reason(l) in e.reasons
            && e.id == s.episode.id && e.since == s.episode.since
    ensures Quiet(w, s, xs, 0)
  {
    hide Whole, Step, InBand, Sane;
    if xs != [] {
      var n := |xs| - 1;
      BandKeepsEpisode(w, s, xs[..n], l, m);
      BandIsItsOwn(xs[n], l, m);
      HeldReasonStays(w, After(w, s, xs[..n]), xs[n], l);
      StepKeepsSane(w, After(w, s, xs[..n]), xs[n]);
      forall k | 0 <= k < |xs|
        ensures NotifyPrewarning !in ActionsOf(w, s, xs, k) && NotifyPrewarningRecovery !in ActionsOf(w, s, xs, k)
      {
        if k < n { assert xs[..n][..k] == xs[..k] && ActionsOf(w, s, xs[..n], k) == ActionsOf(w, s, xs, k); }
      }
    }
  }

  lemma BandIsItsOwn(i: Input, l: Limit, m: Margins)
    requires InBand(i, l, m)
    ensures InBand(i, l, i.m) && i.m == m
  {
  }

  // What one would like of a limit's band: wherever the episode is, a band sample
  // never ends it.
  ghost predicate BandHolds(w: Windows, s: AlarmState, l: Limit, m: Margins) {
    forall i :: InBand(i, l, m) ==> NotifyPrewarningRecovery !in Whole(w, s, i).actions && Step(w, s, i).episode.active
  }

  /** The exact condition.  An active episode survives every sample in a limit's
      band if and only if that limit is one of its reasons, or the exit margin adds
      nothing to the entry margin. */
  lemma BandHoldsExactly(w: Windows, s: AlarmState, l: Limit, m: Margins)
    requires Sane(s) && s.episode.active
    ensures BandHolds(w, s, l, m) <==>
              Reason(l) in s.episode.reasons || Effective(m.Exit(l.dimension)) <= Effective(m.Entry(l.dimension))
  {
    if Reason(l) in s.episode.reasons || Effective(m.Exit(l.dimension)) <= Effective(m.Entry(l.dimension)) {
      forall i | InBand(i, l, m)
        ensures NotifyPrewarningRecovery !in Whole(w, s, i).actions && Step(w, s, i).episode.active
      {
        WarnsExactlyNear(i.x, i.st, i.op, Previous(s), i.m, l);
        hide Warnings, RoundTenth, Effective;
      }
    } else {
      var i := Margin(l, m);
      OnlyMarginal(l, m, Previous(s));
      hide Warnings, InBand;
      assert NotifyPrewarningRecovery in Whole(w, s, i).actions;
    }
  }

  // A standard and a sample whose distance from the limit is all of the exit margin.
  function Margin(l: Limit, m: Margins): Input {
    var d := Effective(m.Exit(l.dimension));
    var far := d + Effective(m.Entry(l.dimension)) + 1.0;
    var b := Some(if l.direction == Lower then Standards.Bounds(-d, far) else Standards.Bounds(-far, d));
    var (t, h) := if l.dimension == Temperature then (b, None) else (None, b);
    Input(Measurement(Number(0.0), Number(0.0), Some(Good)),
          Some(Standards.Standard("s", "1", "A", None, t, h, 0, None, 0, true, Some("D"), Some(Standards.AllDay), "d",
                                  None)),
          None, m, 0, false, 0, None, None)
  }

  lemma OnlyMarginal(l: Limit, m: Margins, previous: seq<string>)
    requires Reason(l) !in previous && Effective(m.Exit(l.dimension)) > Effective(m.Entry(l.dimension))
    ensures var i := Margin(l, m);
            Standards.WellFormed(i.st.value) && InBand(i, l, m) && Warnings(i.x, i.st, i.op, previous, m) == []
  {
    var i := Margin(l, m);
    assert RoundTenth(0.0) == 0.0;
    hide RoundTenth, Reason;
    forall k | k in LIMITS ensures !Near(i.x, i.st.value, k, previous, m) {
      if k.dimension == l.dimension && k != l {
        assert Distance(i.x, i.st.value, k).value > Effective(m.Exit(l.dimension));
      }
    }
    WarningsAreReasons(i.x, i.st.value, LIMITS, previous, m);
  }

  // ------------------------------------------------------- band runs

  // A run in the band of one limit, under one fixed standard.
  ghost predicate BandRun(xs: seq<Input>, st: Standards.Standard, l: Limit, m: Margins) {
    forall k :: 0 <= k < |xs| ==> InBand(xs[k], l, m) && xs[k].st == Some(st)
  }

  // After one notification there is neither another nor a recovery notice.
  ghost predicate OneNotice(w: Windows, s: AlarmState, xs: seq<Input>) {
    forall j, k :: 0 <= j < k < |xs| && NotifyPrewarning in ActionsOf(w, s, xs, j) ==>
      NotifyPrewarning !in ActionsOf(w, s, xs, k) && NotifyPrewarningRecovery !in ActionsOf(w, s, xs, k)
  }

  lemma {:induction false} EntryHolds(
    w: Windows, s: AlarmState, xs: seq<Input>, st: Standards.Standard, l: Limit, m: Margins, k: nat)
    requires CanWarn(s) && Sane(s) && BandRun(xs, st, l, m) && 0 < k <= |xs|
    requires IsWithin(xs[0].x, st, l, m.Entry(l.dimension))
    ensures var a := After(w, s, xs[..k]); Sane(a) && a.episode.active && Reason(l) in a.episode.reasons
  {
    assert xs[..k][..k - 1] == xs[..k - 1] && xs[..k][k - 1] == xs[k - 1];
    var i := xs[k - 1];
    if k == 1 {
      assert After(w, s, xs[..0]) == s;
      WarnsExactlyNear(i.x, i.st, i.op, Previous(s), i.m, l);
      StepKeepsSane(w, s, i);
      hide Warnings;
    } else {
      EntryHolds(w, s, xs, st, l, m, k - 1);
      hide Step, Whole, Warnings;
      HeldReasonStays(w, After(w, s, xs[..k - 1]), i, l);
      StepKeepsSane(w, After(w, s, xs[..k - 1]), i);
    }
  }

  /** A band run that begins within the entry margin gives at most one notice,
      and that one at its first sample. */
  lemma BandFromEntry(w: Windows, s: AlarmState, xs: seq<Input>, st: Standards.Standard, l: Limit, m: Margins)
    requires CanWarn(s) && Sane(s) && BandRun(xs, st, l, m)
    requires xs != [] ==> IsWithin(xs[0].x, st, l, m.Entry(l.dimension))
    ensures OneNotice(w, s, xs) && Quiet(w, s, xs, 1)
  {
    forall k | 1 <= k < |xs|
      ensures NotifyPrewarning !in ActionsOf(w, s, xs, k) && NotifyPrewarningRecovery !in ActionsOf(w, s, xs, k)
    {
      EntryHolds(w, s, xs, st, l, m, k);
      HeldReasonStays(w, After(w, s, xs[..k]), xs[k], l);
    }
  }

  ghost predicate BandPromise(w: Windows, l: Limit, m: Margins) {
    forall st, xs :: BandRun(xs, st, l, m) ==> OneNotice(w, RESTING, xs)
  }

  /** The promise of one notice per stay in a limit's band, for all standards and
      all runs from rest, holds if and only if leaving is no looser than entering:
      with a real hysteresis another limit may start the episode and end it. */
  lemma BandPromiseExactly(w: Windows, l: Limit, m: Margins)
    ensures BandPromise(w, l, m) <==> Effective(m.Exit(l.dimension)) <= Effective(m.Entry(l.dimension))
  {
    if Effective(m.Exit(l.dimension)) <= Effective(m.Entry(l.dimension)) {
      forall st, xs | BandRun(xs, st, l, m) ensures OneNotice(w, RESTING, xs) {
        BandFromEntry(w, RESTING, xs, st, l, m);
      }
    } else {
      var st := BothLimits(l, m);
      var xs := [Visit(l, m, 0), Visit(l, m, Away(l, m))];
      VisitsTheBand(l, m, 0);
      VisitsTheBand(l, m, Away(l, m));
      OtherLimitStarts(w, l, m);
      assert BandRun(xs, st, l, m);
      assert NotifyPrewarning in ActionsOf(w, RESTING, xs, 0);
      assert NotifyPrewarningRecovery in ActionsOf(w, RESTING, xs, 1);
    }
  }

  function Other(d: Dimension): Dimension { if d == Temperature then Humidity else Temperature }

  function Reach(d: Dimension, m: Margins): real { Effective(m.Entry(d)) + Effective(m.Exit(d)) }

  // A whole number farther from zero than the other dimension's margins.
  function Away(l: Limit, m: Margins): int { Reach(Other(l.dimension), m).Floor + 1 }

  // Zero sits in this limit's exit margin and on the other dimension's lower limit.
  function BothLimits(l: Limit, m: Margins): Standards.Standard {
    var d := Effective(m.Exit(l.dimension));
    var far := d + Effective(m.Entry(l.dimension)) + 1.0;
    var b := Some(if l.direction == Lower then Standards.Bounds(-d, far) else Standards.Bounds(-far, d));
    var c := Some(Standards.Bounds(0.0, Away(l, m) as real + Reach(Other(l.dimension), m) + 1.0));
    var (t, h) := if l.dimension == Temperature then (b, c) else (c, b);
    Standards.Standard("s", "1", "A", None, t, h, 0, None, 0, true, Some("D"), Some(Standards.AllDay), "d", None)
  }

  function Visit(l: Limit, m: Margins, v: int): Input {
    var (t, h) := if l.dimension == Temperature then (0.0, v as real) else (v as real, 0.0);
    Input(Measurement(Number(t), Number(h), Some(Good)), Some(BothLimits(l, m)), None, m, 0, false, 0, None, None)
  }

  lemma WholeNumbersStay(v: int)
    ensures RoundTenth(v as real) == v as real
  {
    assert IsNearestTenth(v as real, 10 * v);
    RoundIsNearestTenth(v as real, 10 * v);
  }

  lemma VisitsTheBand(l: Limit, m: Margins, v: int)
    requires v == 0 || v == Away(l, m)
    ensures InBand(Visit(l, m, v), l, m) && Standards.WellFormed(BothLimits(l, m))
  {
    WholeNumbersStay(0);
    WholeNumbersStay(v);
    hide RoundTenth;
  }

  lemma OtherLimitStarts(w: Windows, l: Limit, m: Margins)
    requires Effective(m.Exit(l.dimension)) > Effective(m.Entry(l.dimension))
    ensures var first, second := Visit(l, m, 0), Visit(l, m, Away(l, m));
            NotifyPrewarning in Whole(w, RESTING, first).actions
            && NotifyPrewarningRecovery in Whole(w, Step(w, RESTING, first), second).actions
  {
    var first, second := Visit(l, m, 0), Visit(l, m, Away(l, m));
    VisitsTheBand(l, m, 0);
    VisitsTheBand(l, m, Away(l, m));
    var s := Step(w, RESTING, first);
    StartsElsewhere(l, m);
    EndsTheEpisode(l, m, Reasons(RESTING, first));
    assert Warnings(first.x, first.st, first.op, [], m) == Reasons(RESTING, first);
    hide Warnings, Visit, Overall;
    assert s.episode.active && s.episode.reasons == Reasons(RESTING, first);
  }

  lemma StartsElsewhere(l: Limit, m: Margins)
    requires Effective(m.Exit(l.dimension)) > Effective(m.Entry(l.dimension))
    ensures var r := Warnings(Visit(l, m, 0).x, Visit(l, m, 0).st, None, [], m); r != [] && Reason(l) !in r
  {
    var i, other := Visit(l, m, 0), Limit(Other(l.dimension), Lower);
    WholeNumbersStay(0);
    VisitsTheBand(l, m, 0);
    WarnsExactlyNear(i.x, i.st, i.op, [], m, l);
    WarnsExactlyNear(i.x, i.st, i.op, [], m, other);
    hide Warnings, RoundTenth, Overall;
    assert Near(i.x, i.st.value, other, [], m) && !Near(i.x, i.st.value, l, [], m);
  }

  lemma EndsTheEpisode(l: Limit, m: Margins, previous: seq<string>)
    requires Effective(m.Exit(l.dimension)) > Effective(m.Entry(l.dimension)) && Reason(l) !in previous
    ensures var i := Visit(l, m, Away(l, m)); Warnings(i.x, i.st, None, previous, m) == []
  {
    var i := Visit(l, m, Away(l, m));
    WholeNumbersStay(0);
    WholeNumbersStay(Away(l, m));
    hide RoundTenth, Overall, Reason;
    forall k | k in LIMITS ensures !Near(i.x, i.st.value, k, previous, m) {
      if k != l {
        var reach := Effective(m.Entry(k.dimension)) + Effective(m.Exit(k.dimension));
        assert Distance(i.x, i.st.value, k).value > Effective(m.Exit(k.dimension));
        assert Distance(i.x, i.st.value, k).value > Effective(m.Entry(k.dimension));
      }
    }
    WarningsAreReasons(i.x, i.st.value, LIMITS, previous, m);
  }
}
