/**
 The remote CREATE of one alarm cycle as a protocol between any number of
 workers, the local event table, and a remote service that may execute a
 request late, or after it answered with an error, but never twice.
 */
module CreateProtocol {
  import opened Base
  import opened EventStore

  type Worker = nat
  type RequestId = nat

  // The ways a create call can end in an exception, as the writer tells them apart.
  datatype Failure =
    | NotPersisted
    | NotRetryableError
    | OutcomeUnknownError
    | ApiError(outcomeUnknown: bool)
    | TimeoutOrConnection
    | RuntimeFailure
    | OtherFailure

  function CreateFailureOutcome(f: Failure): (o: Outcome)
    ensures o == Retryable <==> f == NotPersisted
    ensures o == NotRetryable <==> f in {NotRetryableError, OtherFailure, ApiError(false)}
    ensures o == Uncertain <==> f in {OutcomeUnknownError, TimeoutOrConnection, RuntimeFailure, ApiError(true)}
  {
    match f
    case NotPersisted => Retryable
    case NotRetryableError => NotRetryable
    case OutcomeUnknownError => Uncertain
    case ApiError(unknown) => if unknown then Uncertain else NotRetryable
    case TimeoutOrConnection => Uncertain
    case RuntimeFailure => Uncertain
    case OtherFailure => NotRetryable
  }

  // Sent: the remote side may still execute it.  Executed: it made its one row.
  // Void: it never will, which is what a truthful "not persisted" means.
  datatype Fate = Sent | Executed | Void

  datatype Post = Post(event: EventId, fate: Fate)

  // Where a worker stands in its create call.
  datatype Stage =
    | Idle
    | Reserved(event: EventId)
    | Waiting(event: EventId, request: RequestId)
    | Failing(event: EventId, request: RequestId, failure: Failure)
    | Answered(event: EventId, request: RequestId)

  datatype World = World(table: Table, workers: map<Worker, Stage>, posts: map<RequestId, Post>)

  datatype Act =
    | Reserve(w: Worker, e: EventId)
    | Send(w: Worker, r: RequestId)
    | Execute(r: RequestId)
    | Answer(w: Worker)
    | Fail(w: Worker, failure: Failure)
    | Report(w: Worker, error: Option<string>)
    | FinishBind(w: Worker, rec: Record)     // bind the answer, or the row found by lookup
    | Crash(w: Worker)
    | Local(op: Op)                          // anything else done to the table

  function StageOf(s: World, w: Worker): Stage { if w in s.workers then s.workers[w] else Idle }

  predicate Allowed(s: World, a: Act) {
    match a
    case Reserve(w, e) => StageOf(s, w) == Idle
    case Send(w, r) => StageOf(s, w).Reserved? && r !in s.posts
    case Execute(r) => r in s.posts && s.posts[r].fate == Sent
    case Answer(w) =>
      && StageOf(s, w).Waiting? && StageOf(s, w).request in s.posts
      && s.posts[StageOf(s, w).request].fate == Executed
    case Fail(w, f) =>
      && StageOf(s, w).Waiting? && StageOf(s, w).request in s.posts
      && (f == NotPersisted ==> s.posts[StageOf(s, w).request].fate != Executed)
    case Report(w, _) => StageOf(s, w).Failing?
    case FinishBind(w, _) => StageOf(s, w).Failing? || StageOf(s, w).Answered?
    case Crash(w) => true
    case Local(op) => Enabled(s.table, op) && !op.OpReserve? && !op.OpOutcome?
  }

  function Do(s: World, a: Act): World {
    match a
    case Reserve(w, e) =>
      (match ReservePost(s.table, e)
       case Ok((t, granted)) => if granted then World(t, s.workers[w := Reserved(e)], s.posts) else s
       case Err(_) => s)
    case Send(w, r) =>
      var st := StageOf(s, w);
      if st.Reserved?
      then s.(workers := s.workers[w := Waiting(st.event, r)], posts := s.posts[r := Post(st.event, Sent)])
      else s
    case Execute(r) => if r in s.posts then s.(posts := s.posts[r := s.posts[r].(fate := Executed)]) else s
    case Answer(w) =>
      var st := StageOf(s, w);
      if st.Waiting? then s.(workers := s.workers[w := Answered(st.event, st.request)]) else s
    case Fail(w, f) =>
      var st := StageOf(s, w);
      if st.Waiting? && st.request in s.posts then
        s.(workers := s.workers[w := Failing(st.event, st.request, f)],
           posts := if f == NotPersisted then s.posts[st.request := s.posts[st.request].(fate := Void)] else s.posts)
      else s
    case Report(w, error) =>
      var st := StageOf(s, w);
      if st.Failing? then
        World(OrSame(MarkOutcome(s.table, st.event, CreateFailureOutcome(st.failure), error), s.table),
              s.workers[w := Idle], s.posts)
      else s
    case FinishBind(w, rec) =>
      var st := StageOf(s, w);
      if st.Failing? || st.Answered? then
        World(OrSame(Bind(s.table, st.event, rec), s.table), s.workers[w := Idle], s.posts)
      else s
    case Crash(w) => s.(workers := s.workers[w := Idle])
    case Local(op) => s.(table := Next(s.table, op))
  }

  // ------------------------------------------------------- the invariant

  predicate Live(s: World, r: RequestId, e: EventId) {
    r in s.posts && s.posts[r].event == e && s.posts[r].fate != Void
  }

  predicate Holds(s: World, w: Worker, e: EventId) { StageOf(s, w) != Idle && StageOf(s, w).event == e }

  // What a worker in the middle of a create call knows.
  predicate StageOk(s: World, w: Worker) {
    match StageOf(s, w)
    case Idle => true
    case Reserved(e) => true
    case Waiting(e, r) => r in s.posts && s.posts[r].event == e
    case Failing(e, r, f) => r in s.posts && s.posts[r].event == e && (f == NotPersisted ==> s.posts[r].fate == Void)
    case Answered(e, r) => r in s.posts && s.posts[r].event == e
  }

  // The one live request a worker's call may have made.
  predicate Made(st: Stage, r: RequestId) { !st.Idle? && !st.Reserved? && st.request == r }

  ghost predicate Inv(s: World) {
    && (forall r, q, e :: Live(s, r, e) && Live(s, q, e) ==> r == q)
    && (forall w, v, e :: Holds(s, w, e) && Holds(s, v, e) ==> w == v)
    && (forall w :: StageOk(s, w))
    && (forall w, r, e :: Holds(s, w, e) && Live(s, r, e) ==> Made(StageOf(s, w), r))
    && (forall e, w :: e in s.table && MayPost(s.table[e]) ==> !Holds(s, w, e))
    && (forall e, r :: e in s.table && MayPost(s.table[e]) ==> !Live(s, r, e))
    && (forall w, e :: Holds(s, w, e) ==> e in s.table && s.table[e].attempted)
    && (forall r, e :: Live(s, r, e) ==> e in s.table)
  }

  // Table changes that open no POST are harmless.
  lemma TableChange(s: World, t: Table)
    requires Inv(s)
    requires forall e :: e in s.table ==> e in t && (s.table[e].attempted ==> t[e].attempted)
    requires forall e :: e in t && MayPost(t[e]) ==> e !in s.table || MayPost(s.table[e])
    ensures Inv(s.(table := t))
  {
    var u := s.(table := t);
    assert forall w :: StageOf(u, w) == StageOf(s, w) && (StageOk(s, w) ==> StageOk(u, w));
    assert forall w, e :: Holds(u, w, e) == Holds(s, w, e);
    assert forall r, e :: Live(u, r, e) == Live(s, r, e);
    forall e | e in t && MayPost(t[e]) && e !in s.table
      ensures (forall w :: !Holds(u, w, e)) && (forall r :: !Live(u, r, e))
    {
    }
  }

  lemma LocalOpensNothing(t: Table, op: Op, e: EventId)
    requires Enabled(t, op) && !op.OpReserve? && !op.OpOutcome? && e in t
    ensures e in Next(t, op) && (t[e].attempted ==> Next(t, op)[e].attempted)
    ensures MayPost(Next(t, op)[e]) ==> MayPost(t[e])
  {
    hide BindRefused, IsReused, Proven, BoundNotes;
  }

  lemma KeepLocal(s: World, op: Op)
    requires Inv(s) && Allowed(s, Local(op))
    ensures Inv(Do(s, Local(op)))
  {
    hide Next, Inv;
    forall e | e in s.table
      ensures e in Next(s.table, op) && (s.table[e].attempted ==> Next(s.table, op)[e].attempted)
      ensures MayPost(Next(s.table, op)[e]) ==> MayPost(s.table[e])
    {
      LocalOpensNothing(s.table, op, e);
    }
    TableChange(s, Next(s.table, op));
  }

  // A worker that stops holding its event leaves the rest untouched.
  lemma KeepRelease(s: World, w: Worker)
    requires Inv(s)
    ensures Inv(s.(workers := s.workers[w := Idle]))
  {
    var u := s.(workers := s.workers[w := Idle]);
    assert forall v, e :: Holds(u, v, e) ==> Holds(s, v, e) && StageOf(u, v) == StageOf(s, v);
    assert forall r, e :: Live(u, r, e) == Live(s, r, e);
    assert forall v :: StageOk(s, v) ==> StageOk(u, v);
  }

  lemma KeepReserve(s: World, w: Worker, e: EventId)
    requires Inv(s) && Allowed(s, Reserve(w, e))
    ensures Inv(Do(s, Reserve(w, e)))
  {
    if e in s.table && MayPost(s.table[e]) {
      var u := Do(s, Reserve(w, e));
      assert forall v :: v != w ==> StageOf(u, v) == StageOf(s, v);
      assert forall v, d :: v != w ==> Holds(u, v, d) == Holds(s, v, d);
      assert forall r, d :: Live(u, r, d) == Live(s, r, d);
      assert forall v :: StageOk(s, v) ==> StageOk(u, v);
      assert forall d :: d in u.table && MayPost(u.table[d]) ==> d != e && MayPost(s.table[d]);
    }
  }

  lemma KeepSend(s: World, w: Worker, r: RequestId)
    requires Inv(s) && Allowed(s, Send(w, r))
    ensures Inv(Do(s, Send(w, r)))
  {
    var u, d := Do(s, Send(w, r)), StageOf(s, w).event;
    assert Holds(s, w, d);
    assert forall q :: !Live(s, q, d);
    assert forall v :: v != w ==> StageOf(u, v) == StageOf(s, v);
    assert forall v, e :: Holds(u, v, e) == Holds(s, v, e);
    assert forall q, e :: Live(u, q, e) <==> (q == r && e == d) || Live(s, q, e);
    assert forall v :: StageOk(s, v) ==> StageOk(u, v);
  }

  lemma KeepExecute(s: World, r: RequestId)
    requires Inv(s) && Allowed(s, Execute(r))
    ensures Inv(Do(s, Execute(r)))
  {
    var u := Do(s, Execute(r));
    assert forall v :: StageOf(u, v) == StageOf(s, v) && (StageOk(s, v) ==> StageOk(u, v));
    assert forall v, e :: Holds(u, v, e) == Holds(s, v, e);
    assert forall q, e :: Live(u, q, e) == Live(s, q, e);
  }

  lemma KeepAnswer(s: World, w: Worker)
    requires Inv(s) && Allowed(s, Answer(w))
    ensures Inv(Do(s, Answer(w)))
  {
    var u := Do(s, Answer(w));
    assert forall v :: v != w ==> StageOf(u, v) == StageOf(s, v);
    assert forall v, e :: Holds(u, v, e) == Holds(s, v, e);
    assert forall q, e :: Live(u, q, e) == Live(s, q, e);
    assert forall v :: StageOk(s, v) ==> StageOk(u, v);
  }

  lemma KeepFail(s: World, w: Worker, f: Failure)
    requires Inv(s) && Allowed(s, Fail(w, f))
    ensures Inv(Do(s, Fail(w, f)))
  {
    var u := Do(s, Fail(w, f));
    assert forall v :: v != w ==> StageOf(u, v) == StageOf(s, v);
    assert forall v, e :: Holds(u, v, e) == Holds(s, v, e);
    assert forall q, e :: Live(u, q, e) ==> Live(s, q, e);
    assert forall v :: StageOk(s, v) ==> StageOk(u, v);
  }

  // Only a void request is reported retryable, so reopening the POST is safe.
  lemma KeepReport(s: World, w: Worker, error: Option<string>)
    requires Inv(s) && Allowed(s, Report(w, error))
    ensures Inv(Do(s, Report(w, error)))
  {
    var st := StageOf(s, w);
    var u := Do(s, Report(w, error));
    assert Holds(s, w, st.event) && StageOk(s, w);
    assert forall v, e :: Holds(u, v, e) <==> v != w && Holds(s, v, e);
    assert forall q, e :: Live(u, q, e) == Live(s, q, e);
    assert forall v :: v != w ==> StageOf(u, v) == StageOf(s, v) && (StageOk(s, v) ==> StageOk(u, v));
    assert forall e :: e in u.table && e != st.event ==> u.table[e] == s.table[e];
    assert st.failure == NotPersisted ==> forall q :: !Live(s, q, st.event);
  }

  lemma KeepFinishBind(s: World, w: Worker, rec: Record)
    requires Inv(s) && Allowed(s, FinishBind(w, rec))
    ensures Inv(Do(s, FinishBind(w, rec)))
  {
    var op := OpBind(StageOf(s, w).event, rec);
    KeepLocal(s, op);
    KeepRelease(Do(s, Local(op)), w);
    assert Do(s, FinishBind(w, rec)) == Do(s, Local(op)).(workers := s.workers[w := Idle]);
  }

  lemma ActKeepsInv(s: World, a: Act)
    requires Inv(s) && Allowed(s, a)
    ensures Inv(Do(s, a))
  {
    hide Inv, Allowed, Do;
    match a
    case Reserve(w, e) => KeepReserve(s, w, e);
    case Send(w, r) => KeepSend(s, w, r);
    case Execute(r) => KeepExecute(s, r);
    case Answer(w) => KeepAnswer(s, w);
    case Fail(w, f) => KeepFail(s, w, f);
    case Report(w, error) => KeepReport(s, w, error);
    case FinishBind(w, rec) => KeepFinishBind(s, w, rec);
    case Crash(w) => KeepCrash(s, w);
    case Local(op) => KeepLocal(s, op);
  }

  lemma KeepCrash(s: World, w: Worker)
    requires Inv(s)
    ensures Inv(Do(s, Crash(w)))
  {
    KeepRelease(s, w);
  }

  const START := World(map[], map[], map[])

  // A sequence of acts from s, each allowed where it happens.
  function Final(s: World, acts: seq<Act>): World {
    if acts == [] then s else Do(Final(s, acts[..|acts| - 1]), acts[|acts| - 1])
  }

  predicate LegalFrom(s: World, acts: seq<Act>) {
    acts == []
    || (LegalFrom(s, acts[..|acts| - 1]) && Allowed(Final(s, acts[..|acts| - 1]), acts[|acts| - 1]))
  }

  function After(acts: seq<Act>): World { Final(START, acts) }

  predicate Legal(acts: seq<Act>) { LegalFrom(START, acts) }

  lemma {:induction false} LegalKeepsInv(s: World, acts: seq<Act>)
    requires Inv(s) && LegalFrom(s, acts)
    ensures Inv(Final(s, acts))
  {
    if acts != [] {
      hide Do, Allowed, Inv;
      LegalKeepsInv(s, acts[..|acts| - 1]);
      ActKeepsInv(Final(s, acts[..|acts| - 1]), acts[|acts| - 1]);
    }
  }

  lemma {:induction false} ActsJoin(s: World, a: seq<Act>, b: seq<Act>)
    requires LegalFrom(s, a) && LegalFrom(Final(s, a), b)
    ensures LegalFrom(s, a + b) && Final(s, a + b) == Final(Final(s, a), b)
  {
    hide Do, Allowed;
    if b == [] { assert a + b == a; }
    else {
      var n := |b| - 1;
      ActsJoin(s, a, b[..n]);
      assert (a + b)[..|a + b| - 1] == a + b[..n];
    }
  }

  lemma OneAct(s: World, a: Act)
    requires Allowed(s, a)
    ensures LegalFrom(s, [a]) && Final(s, [a]) == Do(s, a)
  {
    assert [a][..0] == [];
    assert LegalFrom(s, []) && Final(s, []) == s;
  }

  lemma ReachableInv(acts: seq<Act>)
    requires Legal(acts)
    ensures Inv(After(acts))
  {
    StartInv();
    LegalKeepsInv(START, acts);
  }

  lemma StartInv()
    ensures Inv(START)
  {
  }

  // Request r made a remote row for event e.
  predicate HasRow(s: World, r: RequestId, e: EventId) { r in s.posts && s.posts[r] == Post(e, Executed) }

  // Of the requests for one event at most one made a row or still may, and none
  // while a POST is open for it.
  ghost predicate SingleRow(s: World, e: EventId) {
    && (forall r, q :: Live(s, r, e) && Live(s, q, e) ==> r == q)
    && (forall r, q :: HasRow(s, r, e) && HasRow(s, q, e) ==> r == q)
    && (e in s.table && MayPost(s.table[e]) ==> forall r :: !Live(s, r, e))
  }

  lemma InvMeansSingleRow(s: World, e: EventId)
    requires Inv(s)
    ensures SingleRow(s, e)
  {
    forall r, q | HasRow(s, r, e) && HasRow(s, q, e) ensures r == q {
      assert Live(s, r, e) && Live(s, q, e);
    }
  }

  /** However workers, crashes, late executions and reports interleave, the
      remote side never holds two rows created for one local event; and as long
      as a POST is open for an event, it holds none and none is on its way. */
  lemma AtMostOneRemoteRow(acts: seq<Act>, e: EventId)
    requires Legal(acts)
    ensures SingleRow(After(acts), e)
  {
    hide After;
    ReachableInv(acts);
    InvMeansSingleRow(After(acts), e);
  }

  lemma Extend(acts: seq<Act>, a: Act)
    requires Legal(acts) && Allowed(After(acts), a)
    ensures Legal(acts + [a]) && After(acts + [a]) == Do(After(acts), a)
  {
    OneAct(After(acts), a);
    ActsJoin(START, acts, [a]);
  }

  lemma StartOfHistory() returns (acts: seq<Act>)
    ensures Legal(acts) && After(acts) == START.(table := map[0 := NewEvent("D", EventKey("D", 1), 1)])
  {
    var create := Local(OpCreate(0, None, "D", EventKey("D", 1), 1));
    assert IsReused(map[], "D", EventKey("D", 1), None);
    Extend([], create);
    acts := [] + [create];
  }

  // Why only NotPersisted reopens the POST: after any other failure the request
  // may still be executed, so a second one could make a second row.
  lemma AmbiguousFailureMayStillExecute(f: Failure)
    requires f != NotPersisted
    ensures exists acts ::
              Legal(acts) && StageOf(After(acts), 0) == Failing(0, 0, f) && Allowed(After(acts), Execute(0))
  {
    var acts := StartOfHistory();
    hide Legal, After;
    var t := ReservePost(After(acts).table, 0).value.0;
    Extend(acts, Reserve(0, 0));
    acts := acts + [Reserve(0, 0)];
    assert After(acts) == World(t, map[0 := Reserved(0)], map[]);
    Extend(acts, Send(0, 0));
    acts := acts + [Send(0, 0)];
    assert After(acts) == World(t, map[0 := Waiting(0, 0)], map[0 := Post(0, Sent)]);
    Extend(acts, Fail(0, f));
    acts := acts + [Fail(0, f)];
    assert After(acts) == World(t, map[0 := Failing(0, 0, f)], map[0 := Post(0, Sent)]);
  }
}
