/**
 Nested local transactions: a stack of "unit" and "repository" frames over the
 database's BEGIN / SAVEPOINT / COMMIT.

 `Connection` executes blocks of local work on that machinery, and `Exec` says
 what it computes for every block.  `Meaning` says what a block does when only
 one level of transaction is visible, and `Plain` when transactions are not
 visible at all and blocks are simply atomic.
 */
module Transactions {
  import opened Base

  datatype Kind = UnitFrame | RepositoryFrame

  // A frame without a name was opened by BEGIN, a named one by SAVEPOINT.
  datatype Frame = Frame(kind: Kind, name: Option<nat>)

  datatype Save<S> = Save(name: nat, image: S)

  // Raised is an ordinary exception; Leaked is one that only a unit cleans up
  // after (the write scope catches ordinary exceptions only).
  datatype Outcome = Returned | Raised | Leaked

  // Work on a database whose contents are of type S.
  datatype Block<!S> =
    | Write(update: S -> S)
    | Commit
    | Throw(base: bool)
    | Then(first: Block<S>, second: Block<S>)
    | Catch(body: Block<S>, handler: Block<S>)
    | UnitOfWork(body: Block<S>, commitFails: bool)
    | WriteTxn(body: Block<S>, commitFails: bool)

  // What directly encloses a block.
  datatype Place = Top | InUnit | InTxn

  // Bare commits stand at the top or directly under a unit.
  predicate WellNested<S>(b: Block<S>, place: Place) {
    match b
    case Write(_) => true
    case Commit => place != InTxn
    case Throw(_) => true
    case Then(p, q) => WellNested(p, place) && WellNested(q, place)
    case Catch(p, q) => WellNested(p, place) && WellNested(q, place)
    case UnitOfWork(p, _) => WellNested(p, InUnit)
    case WriteTxn(p, _) => WellNested(p, InTxn)
  }

  // ---------------------------------------------------------------- meanings

  // open: a transaction is in progress.
  datatype World<S> = World(durable: S, working: S, open: bool) {
    ghost predicate Consistent() { !open ==> working == durable }

    function Rollback(): World<S> { World(durable, durable, false) }

    function Persist(): World<S> { World(working, working, false) }
  }

  // The end of an atomic block entered in world `w` whose body ended in `done`.
  function Settle<S>(w: World<S>, done: World<S>, keep: bool): World<S> {
    if w.open then (if keep then done else done.(working := w.working))
    else if keep then done.Persist() else done.Rollback()
  }

  function Meaning<S>(b: Block<S>, place: Place, w: World<S>): (r: (Outcome, World<S>)) {
    match b
    case Write(f) => (Returned, w.(working := f(w.working), open := true))
    case Commit => (Returned, if place == Top then w.Persist() else w)
    case Throw(base) => (if base then Leaked else Raised, w)
    case Then(p, q) =>
      var (o, w1) := Meaning(p, place, w);
      if o == Returned then Meaning(q, place, w1) else (o, w1)
    case Catch(p, q) =>
      var (o, w1) := Meaning(p, place, w);
      if o == Raised then Meaning(q, place, w1) else (o, w1)
    case UnitOfWork(p, fails) =>
      var (o, w1) := Meaning(p, InUnit, w.(open := true));
      var refused := o == Returned && fails && !w.open;
      (if refused then Raised else o, Settle(w, w1, o == Returned && !refused))
    case WriteTxn(p, fails) =>
      var (o, w1) := Meaning(p, InTxn, w.(open := true));
      if o == Leaked then (o, w1)
      else if o == Returned && fails && !w.open then (Raised, w1)
      else (o, Settle(w, w1, o == Returned))
  }

  // Plain nested atomic blocks on one database image.
  function Plain<S>(b: Block<S>, db: S): (Outcome, S) {
    match b
    case Write(f) => (Returned, f(db))
    case Commit => (Returned, db)
    case Throw(base) => (if base then Leaked else Raised, db)
    case Then(p, q) =>
      var (o, d) := Plain(p, db);
      if o == Returned then Plain(q, d) else (o, d)
    case Catch(p, q) =>
      var (o, d) := Plain(p, db);
      if o == Raised then Plain(q, d) else (o, d)
    case UnitOfWork(p, _) =>
      var (o, d) := Plain(p, db);
      (o, if o == Returned then d else db)
    case WriteTxn(p, _) =>
      var (o, d) := Plain(p, db);
      (o, if o == Raised then db else d)
  }

  // Inside an open transaction a block is plain, and nothing it does is durable.
  lemma {:induction false} InnerBlocksArePlain<S>(b: Block<S>, place: Place, w: World<S>)
    requires WellNested(b, place) && w.open && place != Top
    ensures Meaning(b, place, w).0 == Plain(b, w.working).0
    ensures Meaning(b, place, w).1 == World(w.durable, Plain(b, w.working).1, true)
  {
    match b
    case Then(p, q) =>
      InnerBlocksArePlain(p, place, w);
      InnerBlocksArePlain(q, place, Meaning(p, place, w).1);
    case Catch(p, q) =>
      InnerBlocksArePlain(p, place, w);
      InnerBlocksArePlain(q, place, Meaning(p, place, w).1);
    case UnitOfWork(p, _) => InnerBlocksArePlain(p, InUnit, w.(open := true));
    case WriteTxn(p, _) => InnerBlocksArePlain(p, InTxn, w.(open := true));
    case _ =>
  }

  // The outermost unit is all-or-nothing on durable data, whatever ends it.
  lemma OutermostUnitIsAtomic<S>(body: Block<S>, fails: bool, w: World<S>)
    requires WellNested(body, InUnit) && !w.open && w.Consistent()
    ensures var (o, w1) := Meaning(UnitOfWork(body, fails), Top, w);
            var (po, db) := Plain(body, w.durable);
            && (o == Returned <==> po == Returned && !fails)
            && w1 == if o == Returned then World(db, db, false) else w
  {
    InnerBlocksArePlain(body, InUnit, w.(open := true));
  }

  // The outermost write scope is too, except that a failing COMMIT leaves the
  // work pending in an open transaction for the retry wrapper to discard.
  lemma OutermostTxnIsAtomic<S>(body: Block<S>, fails: bool, w: World<S>)
    requires WellNested(body, InTxn) && !w.open && w.Consistent()
    ensures var (o, w1) := Meaning(WriteTxn(body, fails), Top, w);
            var (po, db) := Plain(body, w.durable);
            && (po == Returned && !fails ==> o == Returned && w1 == World(db, db, false))
            && (po == Raised ==> o == Raised && w1 == w)
            && (po == Returned && fails ==> o == Raised && w1 == World(w.durable, db, true))
            && (po == Leaked ==> o == Leaked && w1 == World(w.durable, db, true))
  {
    InnerBlocksArePlain(body, InTxn, w.(open := true));
  }

  // ------------------------------------------------------------ bounded retry

  const MAX_ATTEMPTS := 5

  datatype Attempt<!S> = Attempt(block: Block<S>, lockError: bool)

  // Attempt k behaves as attempts[k]; only lock errors are retried, and only
  // when the caller did not already hold a transaction.
  function RetryMeaning<S>(attempts: seq<Attempt<S>>, k: nat, place: Place, w: World<S>): (Outcome, World<S>)
    requires k < |attempts|
    decreases |attempts| - k
  {
    var (o, w1) := Meaning(attempts[k].block, place, w);
    if o != Raised || w.open then (o, w1)
    else if attempts[k].lockError && k + 1 < |attempts| then
      RetryMeaning(attempts, k + 1, place, w1.Rollback())
    else (o, w1.Rollback())
  }

  // A write scope that succeeded: its plain effect, made durable.
  ghost predicate TookEffect<S>(b: Block<S>, w: World<S>, w1: World<S>) {
    && b.WriteTxn? && !b.commitFails
    && var (o, db) := Plain(b.body, w.durable); o == Returned && w1 == World(db, db, false)
  }

  // With one write scope per attempt, failed attempts leave nothing behind: the
  // call acts as its last attempt alone, or not at all.
  lemma {:induction false} RetriedScopeIsAtomic<S>(attempts: seq<Attempt<S>>, k: nat, w: World<S>)
    requires k < |attempts| && !w.open && w.Consistent()
    requires forall i :: 0 <= i < |attempts| ==>
      attempts[i].block.WriteTxn? && WellNested(attempts[i].block, Top)
    ensures var (o, w1) := RetryMeaning(attempts, k, Top, w);
            && (o == Raised ==> w1 == w)
            && (o == Returned ==> exists i :: k <= i < |attempts| && TookEffect(attempts[i].block, w, w1))
    decreases |attempts| - k
  {
    var a := attempts[k];
    OutermostTxnIsAtomic(a.block.body, a.block.commitFails, w);
    var (o, w1) := Meaning(a.block, Top, w);
    if o == Raised && a.lockError && k + 1 < |attempts| {
      assert w1.Rollback() == w;
      RetriedScopeIsAtomic(attempts, k + 1, w);
    }
  }

  // ------------------------------------------------------- the frame stack

  // A frame with the image to which its rollback returns.
  datatype Level<S> = Level(kind: Kind, name: Option<nat>, image: S)

  datatype Machine<S> = Machine(world: World<S>, stack: seq<Level<S>>, next: nat) {
    // Only the bottom frame can stem from BEGIN; frames live in a transaction.
    ghost predicate Sound() {
      && world.Consistent()
      && (stack != [] ==> world.open)
      && (forall k :: 0 < k < |stack| ==> stack[k].name.Some?)
      && (stack != [] && stack[0].name.None? ==> stack[0].image == world.durable)
    }

    function Place(): Place {
      if stack == [] then Top else if stack[|stack| - 1].kind == UnitFrame then InUnit else InTxn
    }

    function Push(kind: Kind): Machine<S> {
      Machine(world.(open := true),
              stack + [Level(kind, if world.open then Some(next) else None, world.working)],
              if world.open then next + 1 else next)
    }

    function Pop(rollback: bool): Machine<S>
      requires stack != []
    {
      var top := stack[|stack| - 1];
      this.(stack := stack[..|stack| - 1],
            world := if top.name.Some? then (if rollback then world.(working := top.image) else world)
                     else if rollback then world.Rollback() else world.Persist())
    }

    // Deferred under a unit.
    function CommitTop(): Machine<S> {
      if Place() == InUnit then this
      else if stack != [] then Pop(false) else this.(world := world.Persist())
    }

    function RollbackTop(): Machine<S> {
      if Place() == InUnit then this
      else if stack != [] then Pop(true) else this.(world := world.Rollback())
    }

    // Rolls back every frame above `depth`, innermost first.
    function Drop(depth: nat): Machine<S>
      decreases |stack|
    {
      if |stack| <= depth then this else Pop(true).Drop(depth)
    }

    // Whether a commit here reaches the database, and what its refusal leaves.
    predicate Commits() {
      world.open && (stack == [] || (Place() == InTxn && stack[|stack| - 1].name.None?))
    }

    function Refused(): Machine<S> { if stack == [] then this else this.(stack := stack[..|stack| - 1]) }

    // The end of a unit whose frame is at `depth`.
    function LeaveUnit(o: Outcome, refused: bool, depth: nat): (Outcome, Machine<S>) {
      if o != Returned then (o, Drop(depth))
      else if refused then (Raised, this.(world := world.Rollback(), stack := []))
      else (Returned, if stack == [] then this else Pop(false))
    }

    // The end of a write scope, whichever frame is on top by then.
    function LeaveTxn(o: Outcome, fails: bool): (Outcome, Machine<S>) {
      match o
      case Leaked => (Leaked, this)
      case Raised => (Raised, if world.open then RollbackTop() else this)
      case Returned => if fails && Commits() then (Raised, Refused()) else (Returned, CommitTop())
    }
  }

  // What the frame machinery computes, for every block whatever.
  function Exec<S>(b: Block<S>, m: Machine<S>): (r: (Outcome, Machine<S>)) {
    match b
    case Write(f) => (Returned, m.(world := m.world.(working := f(m.world.working), open := true)))
    case Commit => (Returned, m.CommitTop())
    case Throw(base) => (if base then Leaked else Raised, m)
    case Then(p, q) =>
      var (o, m1) := Exec(p, m);
      if o == Returned then Exec(q, m1) else (o, m1)
    case Catch(p, q) =>
      var (o, m1) := Exec(p, m);
      if o == Raised then Exec(q, m1) else (o, m1)
    case UnitOfWork(p, fails) =>
      var (o, m1) := Exec(p, m.Push(UnitFrame));
      m1.LeaveUnit(o, o == Returned && fails && !m.world.open, |m.stack|)
    case WriteTxn(p, fails) =>
      var (o, m1) := Exec(p, m.Push(RepositoryFrame));
      m1.LeaveTxn(o, fails)
  }

  // Executed in m, the block runs a commit that reaches the write scope on top
  // of the stack: directly, or through write scopes only.  A unit shields it.
  predicate Closes<S>(b: Block<S>, m: Machine<S>) {
    match b
    case Commit => m.Place() == InTxn
    case Then(p, q) =>
      var (o, m1) := Exec(p, m);
      Closes(p, m) || (o == Returned && Closes(q, m1))
    case Catch(p, q) =>
      var (o, m1) := Exec(p, m);
      Closes(p, m) || (o == Raised && Closes(q, m1))
    case WriteTxn(p, _) => m.Place() == InTxn && Closes(p, m.Push(RepositoryFrame))
    case _ => false
  }

  // ------------------------------------------------------- stack discipline

  // The frames of m up to its unit at i are still there, and nothing was made durable.
  ghost predicate UnitStays<S>(m: Machine<S>, m1: Machine<S>, i: int)
    requires 0 <= i < |m.stack|
  {
    && i < |m1.stack| && m1.stack[..i + 1] == m.stack[..i + 1]
    && m1.world.durable == m.world.durable
  }

  ghost predicate UnitsStay<S>(m: Machine<S>, m1: Machine<S>) {
    forall i :: 0 <= i < |m.stack| && m.stack[i].kind == UnitFrame ==> UnitStays(m, m1, i)
  }

  // Frames were only taken off, and while one is left nothing was made durable.
  ghost predicate Shrunk<S>(m: Machine<S>, m1: Machine<S>) {
    && |m1.stack| <= |m.stack| && m1.stack == m.stack[..|m1.stack|]
    && (m1.stack != [] ==> m1.world.durable == m.world.durable)
  }

  lemma UnitsStayOn<S>(m: Machine<S>, m1: Machine<S>, m2: Machine<S>)
    requires UnitsStay(m, m1) && UnitsStay(m1, m2)
    ensures UnitsStay(m, m2)
  {
    forall i | 0 <= i < |m.stack| && m.stack[i].kind == UnitFrame ensures UnitStays(m, m2, i) {
      assert UnitStays(m, m1, i);
      assert m1.stack[..i + 1][i] == m.stack[i];
      assert UnitStays(m1, m2, i);
    }
  }

  lemma {:induction false} DropUndoes<S>(m: Machine<S>, depth: nat)
    requires m.Sound() && depth < |m.stack|
    ensures var d := m.Drop(depth);
            && d.Sound() && d.stack == m.stack[..depth] && d.next == m.next
            && d.world == if m.stack[depth].name.None? then m.world.Rollback()
                          else m.world.(working := m.stack[depth].image)
    decreases |m.stack|
  {
    if |m.stack| > depth + 1 {
      var p := m.Pop(true);
      DropUndoes(p, depth);
      assert p.stack[..depth] == m.stack[..depth] && p.stack[depth] == m.stack[depth];
    }
  }

  lemma PushIsSound<S>(m: Machine<S>, kind: Kind)
    requires m.Sound()
    ensures m.Push(kind).Sound() && UnitsStay(m, m.Push(kind)) && m.Push(kind).stack[..|m.stack|] == m.stack
    ensures |m.Push(kind).stack| == |m.stack| + 1 && m.Push(kind).stack[|m.stack|].kind == kind
    ensures m.Push(kind).world.durable == m.world.durable
  {
  }

  lemma PopIsSound<S>(m: Machine<S>, rollback: bool)
    requires m.Sound() && m.stack != []
    ensures m.Pop(rollback).Sound()
  {
  }

  // The top frame may go when it is not a unit's.
  lemma TopMayGo<S>(m: Machine<S>, m1: Machine<S>)
    requires m.Sound() && m.Place() != InUnit
    requires m1 in {m.CommitTop(), m.RollbackTop()} || (m.Commits() && m1 == m.Refused())
    ensures m1.Sound() && UnitsStay(m, m1) && Shrunk(m, m1)
    ensures |m1.stack| == if m.stack == [] then 0 else |m.stack| - 1
  {
  }

  // Sound, with its units in place; unless the block leaked frames only went off,
  // and some went off exactly when it closes.
  ghost predicate Fated<S>(b: Block<S>, m: Machine<S>) {
    var (o, m1) := Exec(b, m);
    && m1.Sound() && UnitsStay(m, m1)
    && (o != Leaked ==> Shrunk(m, m1) && (|m1.stack| < |m.stack| <==> Closes(b, m)))
  }

  // Every block keeps the machine sound and its units in place; a block that does
  // not leak only takes frames off, and it takes some off exactly when it closes.
  lemma {:induction false} StackFate<S>(b: Block<S>, m: Machine<S>)
    requires m.Sound()
    ensures var (o, m1) := Exec(b, m);
            && m1.Sound() && UnitsStay(m, m1)
            && (o != Leaked ==> Shrunk(m, m1) && (|m1.stack| < |m.stack| <==> Closes(b, m)))
  {
    hide Exec, Closes, UnitsStay, Shrunk, Machine.Sound, Machine.Push;
    match b
    case Then(p, q) =>
      StackFate(p, m);
      if Exec(p, m).0 == Returned { StackFate(q, Exec(p, m).1); }
      ThenFate(p, q, m);
    case Catch(p, q) =>
      StackFate(p, m);
      if Exec(p, m).0 == Raised { StackFate(q, Exec(p, m).1); }
      CatchFate(p, q, m);
    case UnitOfWork(p, fails) =>
      PushIsSound(m, UnitFrame);
      StackFate(p, m.Push(UnitFrame));
      UnitWorkFate(p, fails, m);
    case WriteTxn(p, fails) =>
      PushIsSound(m, RepositoryFrame);
      StackFate(p, m.Push(RepositoryFrame));
      WriteTxnFate(p, fails, m);
    case _ => StatementFate(b, m);
  }

  lemma StatementFate<S>(b: Block<S>, m: Machine<S>)
    requires m.Sound() && (b.Write? || b.Commit? || b.Throw?)
    ensures Fated(b, m)
  {
    if b.Commit? && m.Place() != InUnit { TopMayGo(m, m.CommitTop()); }
  }

  lemma ThenFate<S>(p: Block<S>, q: Block<S>, m: Machine<S>)
    requires Fated(p, m) && (Exec(p, m).0 == Returned ==> Fated(q, Exec(p, m).1))
    ensures Fated(Then(p, q), m)
  {
    var (o, m1) := Exec(p, m);
    assert Exec(Then(p, q), m) == if o == Returned then Exec(q, m1) else (o, m1);
    assert Closes(Then(p, q), m) <==> Closes(p, m) || (o == Returned && Closes(q, m1));
    hide Exec, Closes, Machine.Sound, UnitsStay, Shrunk;
    if o == Returned {
      UnitsStayOn(m, m1, Exec(q, m1).1);
      if Exec(q, m1).0 != Leaked { ShrunkOn(m, m1, Exec(q, m1).1); }
    }
  }

  lemma CatchFate<S>(p: Block<S>, q: Block<S>, m: Machine<S>)
    requires Fated(p, m) && (Exec(p, m).0 == Raised ==> Fated(q, Exec(p, m).1))
    ensures Fated(Catch(p, q), m)
  {
    var (o, m1) := Exec(p, m);
    assert Exec(Catch(p, q), m) == if o == Raised then Exec(q, m1) else (o, m1);
    assert Closes(Catch(p, q), m) <==> Closes(p, m) || (o == Raised && Closes(q, m1));
    hide Exec, Closes, Machine.Sound, UnitsStay, Shrunk;
    if o == Raised {
      UnitsStayOn(m, m1, Exec(q, m1).1);
      if Exec(q, m1).0 != Leaked { ShrunkOn(m, m1, Exec(q, m1).1); }
    }
  }

  // Frames taken off twice; when none went in the end, none went on the way.
  lemma ShrunkOn<S>(m: Machine<S>, m1: Machine<S>, m2: Machine<S>)
    requires Shrunk(m, m1) && Shrunk(m1, m2)
    ensures Shrunk(m, m2) && |m2.stack| <= |m1.stack| <= |m.stack|
  {
  }

  lemma UnitWorkFate<S>(p: Block<S>, fails: bool, m: Machine<S>)
    requires m.Sound() && Fated(p, m.Push(UnitFrame))
    ensures Fated(UnitOfWork(p, fails), m)
  {
    var (o, m1) := Exec(p, m.Push(UnitFrame));
    UnitUnfolds(m, p, fails);
    UnitFate(m, o, m1, fails);
    assert !Closes(UnitOfWork(p, fails), m);
    hide Exec, Closes, Machine.Sound, UnitsStay, Shrunk, Machine.LeaveUnit, Machine.Push;
  }

  lemma WriteTxnFate<S>(p: Block<S>, fails: bool, m: Machine<S>)
    requires m.Sound() && Fated(p, m.Push(RepositoryFrame))
    ensures Fated(WriteTxn(p, fails), m)
  {
    var (o, m1) := Exec(p, m.Push(RepositoryFrame));
    TxnUnfolds(m, p, fails);
    PushIsSound(m, RepositoryFrame);
    TxnFate(m, o, m1, fails);
    assert Closes(WriteTxn(p, fails), m) <==> m.Place() == InTxn && Closes(p, m.Push(RepositoryFrame));
    LeakLeaks(m1, o, fails);
    hide Exec, Closes, Machine.Sound, UnitsStay, Shrunk, Machine.LeaveTxn, Machine.Push, Machine.Place;
  }

  lemma LeakLeaks<S>(m1: Machine<S>, o: Outcome, fails: bool)
    ensures m1.LeaveTxn(o, fails).0 == Leaked <==> o == Leaked
  {
  }

  // Whatever happened inside, the end of a unit finds its frame and restores the stack.
  lemma UnitFate<S>(m: Machine<S>, o: Outcome, m1: Machine<S>, fails: bool)
    requires m.Sound() && m1.Sound() && UnitsStay(m.Push(UnitFrame), m1)
    requires o != Leaked ==> Shrunk(m.Push(UnitFrame), m1)
    ensures var m2 := m1.LeaveUnit(o, o == Returned && fails && !m.world.open, |m.stack|).1;
            m2.Sound() && m2.stack == m.stack && UnitsStay(m, m2) && Shrunk(m, m2)
    ensures |m1.stack| > |m.stack| && m1.stack[|m.stack|] == m.Push(UnitFrame).stack[|m.stack|]
    ensures o == Returned ==> m1.stack == m.Push(UnitFrame).stack
  {
    var m0, d := m.Push(UnitFrame), |m.stack|;
    PushIsSound(m, UnitFrame);
    assert UnitStays(m0, m1, d);
    assert m1.stack[..d + 1] == m0.stack;
    assert m1.stack[..d] == m0.stack[..d] && m1.stack[d] == m0.stack[d];
    if o != Returned { DropUndoes(m1, d); }
  }

  lemma UnitFrameName<S>(m: Machine<S>)
    ensures m.Push(UnitFrame).stack[|m.stack|].name.None? <==> !m.world.open
  {
  }

  // A unit whose body returned finds its own frame on top.
  lemma UnitEnds<S>(m: Machine<S>, p: Block<S>, fails: bool)
    requires m.Sound()
    ensures var (o, m1) := Exec(p, m.Push(UnitFrame));
            && (o == Returned ==> m1.stack != [] && (m1.stack[|m1.stack| - 1].name.None? <==> !m.world.open))
            && m1.LeaveUnit(o, o == Returned && fails && !m.world.open, |m.stack|).1.stack == m.stack
  {
    PushIsSound(m, UnitFrame);
    StackFate(p, m.Push(UnitFrame));
    UnitFrameName(m);
    hide Exec, Closes;
    var (o, m1) := Exec(p, m.Push(UnitFrame));
    UnitFate(m, o, m1, fails);
    hide UnitsStay, Shrunk;
  }

  lemma UnitUnfolds<S>(m: Machine<S>, p: Block<S>, fails: bool)
    ensures var (o, m1) := Exec(p, m.Push(UnitFrame));
            Exec(UnitOfWork(p, fails), m) == m1.LeaveUnit(o, o == Returned && fails && !m.world.open, |m.stack|)
  {
    hide Machine.LeaveUnit, Machine.LeaveTxn, Machine.Push;
  }

  lemma TxnUnfolds<S>(m: Machine<S>, p: Block<S>, fails: bool)
    ensures var (o, m1) := Exec(p, m.Push(RepositoryFrame));
            Exec(WriteTxn(p, fails), m) == m1.LeaveTxn(o, fails)
  {
    hide Machine.LeaveUnit, Machine.LeaveTxn, Machine.Push;
  }

  lemma TxnFate<S>(m: Machine<S>, o: Outcome, m1: Machine<S>, fails: bool)
    requires m.Sound() && m1.Sound() && UnitsStay(m.Push(RepositoryFrame), m1)
    requires o != Leaked ==> Shrunk(m.Push(RepositoryFrame), m1)
    ensures var (o2, m2) := m1.LeaveTxn(o, fails);
            && m2.Sound() && UnitsStay(m, m2)
            && (o2 != Leaked ==> Shrunk(m, m2))
            && (o2 != Leaked ==> (|m2.stack| < |m.stack| <==> m.Place() == InTxn && |m1.stack| <= |m.stack|))
  {
    var m0, m2 := m.Push(RepositoryFrame), m1.LeaveTxn(o, fails).1;
    PushIsSound(m, RepositoryFrame);
    UnitsStayOn(m, m0, m1);
    if m1.Place() != InUnit && m1 != m2 { TopMayGo(m1, m2); }
    UnitsStayOn(m, m1, m2);
    if o != Leaked { assert m1.stack == m0.stack[..|m1.stack|]; }
  }

  // ------------------------------------------------------- refinement

  // The frames of m are all still there.
  ghost predicate Extends<S>(m: Machine<S>, m1: Machine<S>) {
    |m.stack| <= |m1.stack| && m1.stack[..|m.stack|] == m.stack
  }

  // The machine does what the nested-atomic meaning says, and keeps the frames.
  ghost predicate Refines<S>(b: Block<S>, m: Machine<S>) {
    var (o, m1) := Exec(b, m);
    && (o, m1.world) == Meaning(b, m.Place(), m.world)
    && (o != Leaked ==> m1.stack == m.stack) && Extends(m, m1) && m1.Sound()
  }

  /** For every block whose bare commits stand at the top or directly under a unit,
      the frame stack computes the nested-atomic meaning and is as it was. */
  lemma {:induction false} NestedBlocksAreAtomic<S>(b: Block<S>, m: Machine<S>)
    requires m.Sound() && WellNested(b, m.Place())
    ensures var (o, m1) := Exec(b, m);
            && (o, m1.world) == Meaning(b, m.Place(), m.world)
            && (o != Leaked ==> m1.stack == m.stack) && Extends(m, m1) && m1.Sound()
  {
    hide Exec, Meaning, Machine.Sound, Machine.Place, Machine.Push, Extends;
    match b
    case Then(p, q) =>
      NestedBlocksAreAtomic(p, m);
      if Exec(p, m).0 == Returned {
        SamePlace(m, Exec(p, m).1);
        NestedBlocksAreAtomic(q, Exec(p, m).1);
      }
      ThenRefines(p, q, m);
    case Catch(p, q) =>
      NestedBlocksAreAtomic(p, m);
      if Exec(p, m).0 == Raised {
        SamePlace(m, Exec(p, m).1);
        NestedBlocksAreAtomic(q, Exec(p, m).1);
      }
      CatchRefines(p, q, m);
    case UnitOfWork(p, fails) =>
      PushedPlace(m, UnitFrame);
      NestedBlocksAreAtomic(p, m.Push(UnitFrame));
      UnitRefines(p, fails, m);
    case WriteTxn(p, fails) =>
      PushedPlace(m, RepositoryFrame);
      NestedBlocksAreAtomic(p, m.Push(RepositoryFrame));
      TxnRefines(p, fails, m);
    case _ => StatementRefines(b, m);
  }

  lemma SamePlace<S>(m: Machine<S>, m1: Machine<S>)
    requires m1.stack == m.stack
    ensures m1.Place() == m.Place()
  {
  }

  lemma PushedPlace<S>(m: Machine<S>, kind: Kind)
    requires m.Sound()
    ensures m.Push(kind).Sound() && m.Push(kind).world == m.world.(open := true)
    ensures m.Push(kind).Place() == if kind == UnitFrame then InUnit else InTxn
  {
    PushIsSound(m, kind);
  }

  lemma StatementRefines<S>(b: Block<S>, m: Machine<S>)
    requires m.Sound() && WellNested(b, m.Place()) && (b.Write? || b.Commit? || b.Throw?)
    ensures Refines(b, m)
  {
  }

  lemma ThenRefines<S>(p: Block<S>, q: Block<S>, m: Machine<S>)
    requires Refines(p, m) && (Exec(p, m).0 == Returned ==> Refines(q, Exec(p, m).1))
    ensures Refines(Then(p, q), m)
  {
    ThenUnfolds(p, q, m);
    hide Exec, Meaning, Machine.Sound;
    if Exec(p, m).0 == Returned { SamePlace(m, Exec(p, m).1); }
  }

  lemma ThenUnfolds<S>(p: Block<S>, q: Block<S>, m: Machine<S>)
    ensures var (o, m1) := Exec(p, m);
            Exec(Then(p, q), m) == if o == Returned then Exec(q, m1) else (o, m1)
    ensures var (o, w1) := Meaning(p, m.Place(), m.world);
            Meaning(Then(p, q), m.Place(), m.world) == if o == Returned then Meaning(q, m.Place(), w1) else (o, w1)
  {
  }

  lemma CatchRefines<S>(p: Block<S>, q: Block<S>, m: Machine<S>)
    requires Refines(p, m) && (Exec(p, m).0 == Raised ==> Refines(q, Exec(p, m).1))
    ensures Refines(Catch(p, q), m)
  {
    CatchUnfolds(p, q, m);
    hide Exec, Meaning, Machine.Sound;
    if Exec(p, m).0 == Raised { SamePlace(m, Exec(p, m).1); }
  }

  lemma CatchUnfolds<S>(p: Block<S>, q: Block<S>, m: Machine<S>)
    ensures var (o, m1) := Exec(p, m);
            Exec(Catch(p, q), m) == if o == Raised then Exec(q, m1) else (o, m1)
    ensures var (o, w1) := Meaning(p, m.Place(), m.world);
            Meaning(Catch(p, q), m.Place(), m.world) == if o == Raised then Meaning(q, m.Place(), w1) else (o, w1)
  {
  }

  lemma UnitRefines<S>(p: Block<S>, fails: bool, m: Machine<S>)
    requires m.Sound() && Refines(p, m.Push(UnitFrame))
    ensures Refines(UnitOfWork(p, fails), m)
  {
    var (o, m1) := Exec(p, m.Push(UnitFrame));
    UnitUnfolds(m, p, fails);
    UnitMeans(p, fails, m.Place(), m.world);
    PushedPlace(m, UnitFrame);
    StackFate(UnitOfWork(p, fails), m);
    UnitIsAtomic(m, o, m1, fails);
    hide Exec, Meaning, Machine.Sound, Machine.Push, Machine.LeaveUnit, UnitsStay, Shrunk, Closes;
  }

  lemma UnitMeans<S>(p: Block<S>, fails: bool, place: Place, w: World<S>)
    ensures var (o, w1) := Meaning(p, InUnit, w.(open := true));
            var refused := o == Returned && fails && !w.open;
            Meaning(UnitOfWork(p, fails), place, w)
            == (if refused then Raised else o, Settle(w, w1, o == Returned && !refused))
  {
  }

  lemma TxnRefines<S>(p: Block<S>, fails: bool, m: Machine<S>)
    requires m.Sound() && Refines(p, m.Push(RepositoryFrame))
    ensures Refines(WriteTxn(p, fails), m)
  {
    var (o, m1) := Exec(p, m.Push(RepositoryFrame));
    TxnUnfolds(m, p, fails);
    TxnMeans(p, fails, m.Place(), m.world);
    PushedPlace(m, RepositoryFrame);
    PushExtends(m, m1);
    StackFate(WriteTxn(p, fails), m);
    TxnIsAtomic(m, o, m1, fails);
    hide Exec, Meaning, Machine.Sound, Machine.Push, Machine.LeaveTxn, UnitsStay, Shrunk, Closes, Settle;
  }

  lemma TxnMeans<S>(p: Block<S>, fails: bool, place: Place, w: World<S>)
    ensures var (o, w1) := Meaning(p, InTxn, w.(open := true));
            Meaning(WriteTxn(p, fails), place, w)
            == if o == Leaked then (o, w1)
               else if o == Returned && fails && !w.open then (Raised, w1)
               else (o, Settle(w, w1, o == Returned))
  {
  }

  lemma PushExtends<S>(m: Machine<S>, m1: Machine<S>)
    requires Extends(m.Push(RepositoryFrame), m1)
    ensures Extends(m, m1)
  {
    var m0, d := m.Push(RepositoryFrame), |m.stack|;
    assert m1.stack[..d] == m1.stack[..d + 1][..d] && m0.stack[..d] == m.stack;
  }

  lemma UnitIsAtomic<S>(m: Machine<S>, o: Outcome, m1: Machine<S>, fails: bool)
    requires m.Sound() && m1.Sound() && Extends(m.Push(UnitFrame), m1)
    requires o != Leaked ==> m1.stack == m.Push(UnitFrame).stack
    ensures var refused := o == Returned && fails && !m.world.open;
            var (o2, m2) := m1.LeaveUnit(o, o == Returned && fails && !m.world.open, |m.stack|);
            && o2 == (if refused then Raised else o) && m2.stack == m.stack
            && m2.world == Settle(m.world, m1.world, o == Returned && !refused)
  {
    var m0, d := m.Push(UnitFrame), |m.stack|;
    PushIsSound(m, UnitFrame);
    assert m1.stack[d] == m0.stack[d] && m1.stack[..d] == m0.stack[..d];
    if o != Returned { DropUndoes(m1, d); }
    if m.world.open { assert d == 0 ==> m1.stack[0].name.Some?; }
  }

  lemma TxnIsAtomic<S>(m: Machine<S>, o: Outcome, m1: Machine<S>, fails: bool)
    requires m.Sound() && m1.Sound()
    requires o != Leaked ==> m1.stack == m.Push(RepositoryFrame).stack
    ensures var (o2, m2) := m1.LeaveTxn(o, fails);
            var refused := o == Returned && fails && !m.world.open;
            && (o == Leaked ==> o2 == Leaked && m2 == m1)
            && (o != Leaked && refused ==> o2 == Raised && m2.world == m1.world && m2.stack == m.stack)
            && (o != Leaked && !refused ==> o2 == o && m2.stack == m.stack)
            && (o != Leaked && !refused ==> m2.world == Settle(m.world, m1.world, o == Returned))
  {
    PushIsSound(m, RepositoryFrame);
  }

  // ------------------------------------------------------- commits inside a write scope

  /** A scope that fails after a commit directly inside it.  At the top the work
      before the commit stays durable and what is pending after it is lost; under
      a unit everything stays in the unit; under another write scope the failure
      takes that scope's frame too, and with it all of that scope's work. */
  lemma CommitSplitsScope<S>(p: Block<S>, q: Block<S>, fails: bool, m: Machine<S>)
    requires m.Sound() && (m.stack == [] ==> !m.world.open)
    requires WellNested(p, InTxn) && WellNested(q, m.Place())
    requires Plain(p, m.world.working).0 == Returned
    requires Meaning(q, m.Place(), AfterCommit(p, m)).0 == Returned
    ensures var (o, m1) := Exec(Split(p, q, fails), m);
            var w := Meaning(q, m.Place(), AfterCommit(p, m)).1;
            && o == Raised
            && (m.Place() == Top ==> m1.stack == [] && m1.world == w.Rollback())
            && (m.Place() == InUnit ==> m1.stack == m.stack && m1.world == w)
            && (m.Place() == InTxn ==> |m1.stack| == |m.stack| - 1 && m1.world == UndoneTop(m).world)
  {
    hide Exec, Meaning, WellNested, Plain, AfterCommit, Machine.LeaveTxn, Machine.Push, Machine.Sound, Machine.Pop;
    FirstHalfIsKept(p, m);
    var m2 := Exec(p, m.Push(RepositoryFrame)).1.CommitTop();
    SecondHalfRuns(q, m, m2);
    SplitRuns(p, q, fails, m);
    FailsOutside(m, Exec(q, m2).1, fails);
  }

  lemma SecondHalfRuns<S>(q: Block<S>, m: Machine<S>, m2: Machine<S>)
    requires m2.Sound() && m2.stack == m.stack && WellNested(q, m.Place())
    requires Meaning(q, m.Place(), m2.world).0 == Returned
    requires m.Place() == InTxn ==> m2.world.durable == m.world.durable
    ensures var (o, m3) := Exec(q, m2);
            && (o, m3.world) == Meaning(q, m.Place(), m2.world) && m3.Sound() && m3.stack == m.stack
            && (m.Place() == InTxn ==> m3.world.durable == m.world.durable)
  {
    NestedBlocksAreAtomic(q, m2);
    if m.Place() == InTxn { InnerBlocksArePlain(q, InTxn, m2.world); }
  }

  // The end of a failed scope whose own frame is gone.
  lemma FailsOutside<S>(m: Machine<S>, m3: Machine<S>, fails: bool)
    requires m.Sound() && m3.Sound() && m3.stack == m.stack
    requires m.Place() == InTxn ==> m3.world.durable == m.world.durable
    ensures var (o, m1) := m3.LeaveTxn(Raised, fails);
            && o == Raised
            && (m.Place() == Top ==> m1.stack == [] && m1.world == m3.world.Rollback())
            && (m.Place() == InUnit ==> m1.stack == m.stack && m1.world == m3.world)
            && (m.Place() == InTxn ==> |m1.stack| == |m.stack| - 1 && m1.world == UndoneTop(m).world)
  {
  }

  lemma FirstHalfIsKept<S>(p: Block<S>, m: Machine<S>)
    requires m.Sound() && (m.stack == [] ==> !m.world.open) && WellNested(p, InTxn)
    requires Plain(p, m.world.working).0 == Returned
    ensures var (o, m1) := Exec(p, m.Push(RepositoryFrame));
            var m2 := m1.CommitTop();
            && o == Returned && m2.Sound() && m2.stack == m.stack && m2.world == AfterCommit(p, m)
            && (m.Place() == InTxn ==> m2.world.durable == m.world.durable)
  {
    var m0 := m.Push(RepositoryFrame);
    PushIsSound(m, RepositoryFrame);
    NestedBlocksAreAtomic(p, m0);
    InnerBlocksArePlain(p, InTxn, m0.world);
    PopsItsOwn(m, Exec(p, m0).1);
    hide Exec, Meaning, WellNested, Plain;
  }

  lemma PopsItsOwn<S>(m: Machine<S>, m1: Machine<S>)
    requires m.Sound() && m1.Sound() && m1.stack == m.Push(RepositoryFrame).stack
    ensures var m2 := m1.CommitTop();
            && m2.Sound() && m2.stack == m.stack
            && m2.world == if m.world.open then m1.world else m1.world.Persist()
  {
    PushIsSound(m, RepositoryFrame);
  }

  lemma SplitRuns<S>(p: Block<S>, q: Block<S>, fails: bool, m: Machine<S>)
    requires var (o, m1) := Exec(p, m.Push(RepositoryFrame)); o == Returned && Exec(q, m1.CommitTop()).0 == Returned
    ensures var m2 := Exec(p, m.Push(RepositoryFrame)).1.CommitTop();
            Exec(Split(p, q, fails), m) == Exec(q, m2).1.LeaveTxn(Raised, fails)
  {
    var m0 := m.Push(RepositoryFrame);
    var m1 := Exec(p, m0).1;
    var m3 := Exec(q, m1.CommitTop()).1;
    var stop: Block<S> := Throw(false);
    assert Exec(stop, m3) == (Raised, m3) && Exec(Commit, m1) == (Returned, m1.CommitTop());
    TxnUnfolds(m, Then(p, Then(Commit, Then(q, stop))), fails);
    ThenRuns(q, stop, m1.CommitTop());
    ThenRuns(Commit, Then(q, stop), m1);
    ThenRuns(p, Then(Commit, Then(q, stop)), m0);
    hide Exec;
  }

  lemma ThenRuns<S>(p: Block<S>, q: Block<S>, m: Machine<S>)
    requires Exec(p, m).0 == Returned
    ensures Exec(Then(p, q), m) == Exec(q, Exec(p, m).1)
  {
  }

  function Split<S>(p: Block<S>, q: Block<S>, fails: bool): Block<S> {
    WriteTxn(Then(p, Then(Commit, Then(q, Throw(false)))), fails)
  }

  // The world once p's work is committed: durable at the top, pending elsewhere.
  function AfterCommit<S>(p: Block<S>, m: Machine<S>): World<S> {
    var db := Plain(p, m.world.working).1;
    if m.world.open then m.world.(working := db) else World(db, db, false)
  }

  // The enclosing scope rolled back.
  function UndoneTop<S>(m: Machine<S>): Machine<S>
    requires m.stack != []
  {
    m.Pop(true)
  }

  // However a scope that began with p goes on, its failure restores the entry state.
  ghost predicate RestoresOnFailure<S(!new)>(p: Block<S>, m: Machine<S>) {
    forall q: Block<S> :: WellNested(q, InTxn) && FailsAfter(p, q, m) ==> EndsAsBegun(p, q, m)
  }

  ghost predicate FailsAfter<S>(p: Block<S>, q: Block<S>, m: Machine<S>) {
    Exec(WriteTxn(Then(p, q), false), m).0 == Raised
  }

  ghost predicate EndsAsBegun<S>(p: Block<S>, q: Block<S>, m: Machine<S>) {
    var m1 := Exec(WriteTxn(Then(p, q), false), m).1; m1.world == m.world && m1.stack == m.stack
  }

  // p closed its scope at the top, but made nothing durable and left work pending.
  ghost predicate LeftPending<S>(p: Block<S>, m: Machine<S>) {
    var m1 := Exec(p, m.Push(RepositoryFrame)).1;
    m.stack == [] && !m.world.open && m1.world.open && m1.world.durable == m.world.durable
  }

  /** The exact condition.  However it goes on after p, a failing write scope
      restores its entry state if and only if p ran no commit that reaches the
      scope - or p only left work pending at the top, where any rollback takes it. */
  lemma FailureRestoresExactly<S(!new)>(p: Block<S>, m: Machine<S>, change: S -> S)
    requires m.Sound() && Exec(p, m.Push(RepositoryFrame)).0 == Returned
    requires forall x :: change(x) != x
    ensures RestoresOnFailure(p, m) <==> !Closes(p, m.Push(RepositoryFrame)) || LeftPending(p, m)
  {
    var m0 := m.Push(RepositoryFrame);
    PushIsSound(m, RepositoryFrame);
    StackFate(p, m0);
    if !Closes(p, m0) {
      forall q: Block<S> | WellNested(q, InTxn) && FailsAfter(p, q, m) ensures EndsAsBegun(p, q, m) {
        UnclosedIsRestored(p, q, m);
      }
    } else if LeftPending(p, m) {
      forall q: Block<S> | WellNested(q, InTxn) && FailsAfter(p, q, m) ensures EndsAsBegun(p, q, m) {
        PendingIsRestored(p, q, m);
      }
    } else {
      ClosedIsNotRestored(p, m, change);
    }
  }

  lemma UnclosedIsRestored<S>(p: Block<S>, q: Block<S>, m: Machine<S>)
    requires m.Sound() && Exec(p, m.Push(RepositoryFrame)).0 == Returned && !Closes(p, m.Push(RepositoryFrame))
    requires WellNested(q, InTxn) && FailsAfter(p, q, m)
    ensures EndsAsBegun(p, q, m)
  {
    var m0 := m.Push(RepositoryFrame);
    PushIsSound(m, RepositoryFrame);
    StackFate(p, m0);
    var m1 := Exec(p, m0).1;
    assert m1.stack == m0.stack && m1.world.durable == m.world.durable;
    NestedBlocksAreAtomic(q, m1);
    InnerBlocksArePlain(q, InTxn, m1.world);
    var (o, m2) := Exec(q, m1);
    assert Exec(Then(p, q), m0) == (o, m2);
    TxnUnfolds(m, Then(p, q), false);
    hide Exec, Meaning, Plain, WellNested, Closes;
    assert o == Raised;
    OwnFrameRestores(m, m2);
  }

  lemma OwnFrameRestores<S>(m: Machine<S>, m2: Machine<S>)
    requires m.Sound() && m2.Sound() && m2.stack == m.Push(RepositoryFrame).stack
    requires m2.world.durable == m.world.durable
    ensures var m3 := m2.LeaveTxn(Raised, false).1; m3.world == m.world && m3.stack == m.stack
  {
  }

  // Inside an implicit transaction at the top, no scope can make anything durable.
  lemma {:induction false} PendingStaysPending<S>(q: Block<S>, w: World<S>)
    requires WellNested(q, InTxn) && w.open
    ensures var w1 := Meaning(q, Top, w).1; w1.open && w1.durable == w.durable
  {
    match q
    case Then(p, r) =>
      PendingStaysPending(p, w);
      PendingStaysPending(r, Meaning(p, Top, w).1);
    case Catch(p, r) =>
      PendingStaysPending(p, w);
      PendingStaysPending(r, Meaning(p, Top, w).1);
    case UnitOfWork(p, _) => InnerBlocksArePlain(p, InUnit, w.(open := true));
    case WriteTxn(p, _) => InnerBlocksArePlain(p, InTxn, w.(open := true));
    case _ =>
  }

  lemma {:induction false} NestedAnywhere<S>(q: Block<S>)
    requires WellNested(q, InTxn)
    ensures WellNested(q, Top)
  {
    match q
    case Then(p, r) =>
      NestedAnywhere(p);
      NestedAnywhere(r);
    case Catch(p, r) =>
      NestedAnywhere(p);
      NestedAnywhere(r);
    case _ =>
  }

  lemma PendingIsRestored<S>(p: Block<S>, q: Block<S>, m: Machine<S>)
    requires m.Sound() && Exec(p, m.Push(RepositoryFrame)).0 == Returned
    requires Closes(p, m.Push(RepositoryFrame)) && LeftPending(p, m)
    requires WellNested(q, InTxn) && FailsAfter(p, q, m)
    ensures EndsAsBegun(p, q, m)
  {
    var m0 := m.Push(RepositoryFrame);
    PushIsSound(m, RepositoryFrame);
    StackFate(p, m0);
    var m1 := Exec(p, m0).1;
    NestedAnywhere(q);
    NestedBlocksAreAtomic(q, m1);
    PendingStaysPending(q, m1.world);
  }

  // A continuation whose failure shows that the scope is gone.
  lemma ClosedIsNotRestored<S(!new)>(p: Block<S>, m: Machine<S>, change: S -> S)
    requires m.Sound() && Exec(p, m.Push(RepositoryFrame)).0 == Returned
    requires Closes(p, m.Push(RepositoryFrame)) && !LeftPending(p, m)
    requires forall x :: change(x) != x
    ensures !RestoresOnFailure(p, m)
  {
    ClosedStack(p, m);
    var m1 := Exec(p, m.Push(RepositoryFrame)).1;
    var stop: Block<S>, write: Block<S> := Throw(false), WriteTxn(Write(change), false);
    assert WellNested(stop, InTxn);
    if m1.world.working == m.world.working {
      WritesMore(m1, change);
      var m2 := Exec(write, m1).1;
      LossShows(m, m1, m2);
      hide Exec, Machine.LeaveTxn;
      ShowsTheLoss(p, Then(write, stop), m, m2);
    } else {
      LossShows(m, m1, m1);
      assert Exec(stop, m1) == (Raised, m1);
      hide Exec, Machine.LeaveTxn;
      ShowsTheLoss(p, stop, m, m1);
    }
  }

  lemma ClosedStack<S>(p: Block<S>, m: Machine<S>)
    requires m.Sound() && Exec(p, m.Push(RepositoryFrame)).0 == Returned && Closes(p, m.Push(RepositoryFrame))
    ensures var m1 := Exec(p, m.Push(RepositoryFrame)).1;
            m1.Sound() && |m1.stack| <= |m.stack| && m1.stack == m.stack[..|m1.stack|]
  {
    PushIsSound(m, RepositoryFrame);
    StackFate(p, m.Push(RepositoryFrame));
    hide Exec, Closes;
  }

  // One more write scope, and then an error.
  lemma WritesMore<S>(m: Machine<S>, change: S -> S)
    requires m.Sound()
    ensures var write := WriteTxn(Write(change), false);
            var (o, m1) := Exec(write, m);
            var db := change(m.world.working);
            && o == Returned && m1.Sound() && m1.stack == m.stack
            && m1.world == (if m.world.open then m.world.(working := db) else World(db, db, false))
            && WellNested(Then(write, Throw(false)), InTxn) && Exec(Then(write, Throw(false)), m) == (Raised, m1)
  {
    var write: Block<S> := WriteTxn(Write(change), false);
    assert WellNested(Write(change), InTxn);
    assert WellNested(write, m.Place());
    NestedBlocksAreAtomic(write, m);
    assert Meaning(Write(change), InTxn, m.world.(open := true)).1.working == change(m.world.working);
  }

  // Taken off below its own frame, a scope's failure does not lead back to m.
  lemma LossShows<S>(m: Machine<S>, m1: Machine<S>, m2: Machine<S>)
    requires m.Sound() && m1.Sound() && m2.Sound()
    requires |m1.stack| <= |m.stack| && m1.stack == m.stack[..|m1.stack|] && m2.stack == m1.stack
    requires !(m.stack == [] && !m.world.open && m1.world.open && m1.world.durable == m.world.durable)
    requires m2.world.working != m.world.working && m2.world.open == m1.world.open
    requires m1.world.open ==> m2.world.durable == m1.world.durable
    ensures var m3 := m2.LeaveTxn(Raised, false).1; m3.world != m.world || m3.stack != m.stack
  {
  }

  lemma ShowsTheLoss<S(!new)>(p: Block<S>, q: Block<S>, m: Machine<S>, m2: Machine<S>)
    requires Exec(p, m.Push(RepositoryFrame)).0 == Returned && WellNested(q, InTxn)
    requires Exec(q, Exec(p, m.Push(RepositoryFrame)).1) == (Raised, m2)
    requires var m3 := m2.LeaveTxn(Raised, false).1; m3.world != m.world || m3.stack != m.stack
    ensures !RestoresOnFailure(p, m)
  {
    assert Exec(Then(p, q), m.Push(RepositoryFrame)) == (Raised, m2);
    assert FailsAfter(p, q, m) && !EndsAsBegun(p, q, m);
  }

  // ------------------------------------------------------- the connection

  function Unnamed(frames: seq<Frame>): nat { if frames != [] && frames[0].name.None? then 1 else 0 }

  // Every named frame has its savepoint, in the same order.
  predicate Paired<S>(frames: seq<Frame>, saves: seq<Save<S>>) {
    && |frames| == |saves| + Unnamed(frames)
    && forall k :: 0 <= k < |saves| ==> frames[k + Unnamed(frames)].name == Some(saves[k].name)
  }

  // Savepoint names never repeat.
  predicate Ascending<S>(saves: seq<Save<S>>, next: nat) {
    && (forall k :: 0 <= k < |saves| ==> saves[k].name < next)
    && (forall j, k :: 0 <= j < k < |saves| ==> saves[j].name < saves[k].name)
  }

  lemma AscendingGoesOn<S>(saves: seq<Save<S>>, next: nat, image: S)
    requires Ascending(saves, next)
    ensures Ascending(saves + [Save(next, image)], next + 1)
    ensures saves != [] ==> Ascending(saves[..|saves| - 1], next)
  {
  }

  // The frames with the images their rollbacks return to.
  function Levels<S>(frames: seq<Frame>, saves: seq<Save<S>>, durable: S): (r: seq<Level<S>>)
    requires Paired(frames, saves)
    ensures |r| == |frames|
  {
    seq(|frames|, k requires 0 <= k < |frames| =>
      Level(frames[k].kind, frames[k].name,
            if k < Unnamed(frames) then durable else saves[k - Unnamed(frames)].image))
  }

  lemma LevelsGrow<S>(frames: seq<Frame>, saves: seq<Save<S>>, durable: S, frame: Frame, image: S)
    requires Paired(frames, saves)
    requires frame.name.None? ==> frames == [] && saves == [] && image == durable
    ensures var more := saves + if frame.name.Some? then [Save(frame.name.value, image)] else [];
            && Paired(frames + [frame], more)
            && Levels(frames + [frame], more, durable)
               == Levels(frames, saves, durable) + [Level(frame.kind, frame.name, image)]
  {
    assert frames != [] ==> (frames + [frame])[0] == frames[0];
  }

  lemma LevelsShrink<S>(frames: seq<Frame>, saves: seq<Save<S>>, durable: S, later: S)
    requires Paired(frames, saves) && frames != []
    requires frames[|frames| - 1].name.Some? ==> later == durable
    ensures var n, top := |frames| - 1, frames[|frames| - 1];
            && (top.name.Some? ==> saves != [] && saves[|saves| - 1].name == top.name.value)
            && (top.name.None? ==> n == 0 && saves == [])
            && Paired(frames[..n], if top.name.Some? then saves[..|saves| - 1] else saves)
            && Levels(frames[..n], if top.name.Some? then saves[..|saves| - 1] else saves, later)
               == Levels(frames, saves, durable)[..n]
            && Levels(frames, saves, durable)[n].name == top.name
            && Levels(frames, saves, durable)[n].kind == top.kind
            && (top.name.Some? ==> Levels(frames, saves, durable)[n].image == saves[|saves| - 1].image)
  {
    var n, top := |frames| - 1, frames[|frames| - 1];
    assert saves != [] ==> frames[(|saves| - 1) + Unnamed(frames)].name == Some(saves[|saves| - 1].name);
    assert n > 0 ==> frames[..n][0] == frames[0];
  }

  // Savepoint names never repeat, so the search finds the innermost one.
  lemma LastSaveIsFound<S>(saves: seq<Save<S>>)
    requires saves != []
    ensures FindSave(saves, saves[|saves| - 1].name) == |saves| - 1
  {
  }

  function FindSave<S>(saves: seq<Save<S>>, name: nat): (i: nat)
    requires exists k :: 0 <= k < |saves| && saves[k].name == name
    ensures i < |saves| && saves[i].name == name
  {
    if saves[|saves| - 1].name == name then |saves| - 1
    else FindSave(saves[..|saves| - 1], name)
  }

  // The columns of a connection.
  datatype Session<S> = Session(
    durable: S, working: S, inTransaction: bool, saves: seq<Save<S>>, frames: seq<Frame>, nextName: nat)
  {
    ghost predicate Valid() {
      && Paired(frames, saves) && Ascending(saves, nextName)
      && Machine(World(durable, working, inTransaction), Levels(frames, saves, durable), nextName).Sound()
    }

    ghost function View(): Machine<S>
      requires Valid()
    {
      Machine(World(durable, working, inTransaction), Levels(frames, saves, durable), nextName)
    }

    function Top(): Frame
      requires frames != []
    {
      frames[|frames| - 1]
    }

    // BEGIN or SAVEPOINT.
    function Opened(kind: Kind): Session<S> {
      if inTransaction then
        this.(nextName := nextName + 1, saves := saves + [Save(nextName, working)],
              frames := frames + [Frame(kind, Some(nextName))])
      else this.(inTransaction := true, frames := frames + [Frame(kind, None)])
    }

    // The end of the database transaction, with the contents it leaves.
    function Ended(db: S): Session<S> { this.(durable := db, working := db, inTransaction := false) }
  }

  // The stack has the frames' depth and topmost frame.
  lemma ViewTells<S>(s: Session<S>)
    requires s.Valid()
    ensures var m := s.View();
            && m.Sound() && |m.stack| == |s.frames| && m.world == World(s.durable, s.working, s.inTransaction)
            && (s.frames != [] ==> m.stack[|s.frames| - 1].kind == s.Top().kind)
            && (s.frames != [] ==> m.stack[|s.frames| - 1].name == s.Top().name)
  {
  }

  // The end of the transaction with no frame left.
  lemma FlatView<S>(s: Session<S>, db: S)
    requires s.Valid()
    ensures var u := s.Ended(db).(frames := [], saves := []);
            u.Valid() && u.View() == s.View().(stack := [], world := World(db, db, false))
    ensures s.frames == [] ==> s.saves == []
  {
  }

  lemma OpenedView<S>(s: Session<S>, kind: Kind)
    requires s.Valid()
    ensures s.Opened(kind).Valid() && s.Opened(kind).View() == s.View().Push(kind)
  {
    PushIsSound(s.View(), kind);
    var frame := Frame(kind, if s.inTransaction then Some(s.nextName) else None);
    LevelsGrow(s.frames, s.saves, s.durable, frame, s.working);
    AscendingGoesOn(s.saves, s.nextName, s.working);
  }

  // The top frame taken off.
  lemma ClosedView<S>(s: Session<S>, rollback: bool)
    requires s.Valid() && s.frames != []
    ensures s.Top().name.Some? ==>
              && s.saves != [] && FindSave(s.saves, s.Top().name.value) == |s.saves| - 1
              && var u := s.(frames := s.frames[..|s.frames| - 1], saves := s.saves[..|s.saves| - 1],
                             working := if rollback then s.saves[|s.saves| - 1].image else s.working);
              u.Valid() && u.View() == s.View().Pop(rollback)
    ensures s.Top().name.None? ==>
              var u := s.Ended(if rollback then s.durable else s.working).(frames := s.frames[..|s.frames| - 1]);
              u.Valid() && u.View() == s.View().Pop(rollback)
  {
    LevelsShrink(s.frames, s.saves, s.durable, if s.Top().name.Some? || rollback then s.durable else s.working);
    PopIsSound(s.View(), rollback);
    AscendingGoesOn(s.saves, s.nextName, s.working);
    if s.saves != [] { LastSaveIsFound(s.saves); }
  }

  class Connection<S> {
    var state: Session<S>

    ghost predicate Valid()
      reads this
    {
      state.Valid()
    }

    ghost function View(): Machine<S>
      requires Valid()
      reads this
    {
      state.View()
    }

    constructor (db: S)
      ensures Valid() && View().world == World(db, db, false) && View().stack == []
    {
      state := Session(db, db, false, [], [], 0);
    }

    method Begin(kind: Kind)
      requires Valid()
      modifies this
      ensures Valid() && View() == old(View()).Push(kind)
    {
      OpenedView(state, kind);
      hide Session.Valid, Session.View, Machine.Push;
      var name: Option<nat> := None;
      if state.inTransaction {
        name := Some(state.nextName);
        var saves := state.saves + [Save(name.value, state.working)];
        state := state.(nextName := state.nextName + 1, saves := saves, frames := state.frames + [Frame(kind, name)]);
      } else {
        state := state.(inTransaction := true, frames := state.frames + [Frame(kind, name)]);
      }
    }

    // Takes the top frame off: a savepoint is found by its name.
    method FinishFrame(rollback: bool)
      requires Valid() && state.frames != []
      modifies this
      ensures Valid() && View() == old(View()).Pop(rollback)
    {
      ClosedView(state, rollback);
      hide Session.Valid, Session.View, Machine.Pop, FindSave;
      var frame := state.Top();
      state := state.(frames := state.frames[..|state.frames| - 1]);
      if frame.name.Some? {
        var i := FindSave(state.saves, frame.name.value);
        if rollback { state := state.(working := state.saves[i].image); }
        state := state.(saves := state.saves[..i]);
      } else if rollback {
        state := state.(working := state.durable, inTransaction := false);
      } else {
        state := state.(durable := state.working, inTransaction := false);
      }
    }

    method CommitSqlite()
      requires Valid()
      modifies this
      ensures Valid() && View() == old(View()).CommitTop()
    {
      ViewTells(state);
      FlatView(state, state.working);
      hide Session.Valid, Session.View, Machine.Pop, Machine.Sound;
      if state.frames != [] && state.Top().kind == UnitFrame {
        return;
      }
      if state.frames != [] {
        FinishFrame(false);
      } else {
        state := state.(durable := state.working, inTransaction := false);
      }
    }

    method RollbackSqlite()
      requires Valid()
      modifies this
      ensures Valid() && View() == old(View()).RollbackTop()
    {
      ViewTells(state);
      FlatView(state, state.durable);
      hide Session.Valid, Session.View, Machine.Pop, Machine.Sound;
      if state.frames != [] && state.Top().kind == UnitFrame {
        return;
      }
      if state.frames != [] {
        FinishFrame(true);
      } else {
        state := state.(working := state.durable, inTransaction := false);
      }
    }

    // Rolls back every frame above `depth`, innermost first.
    method UnwindTo(depth: nat)
      requires Valid()
      modifies this
      ensures Valid() && View() == old(View()).Drop(depth)
    {
      ghost var goal := View().Drop(depth);
      ViewTells(state);
      while |state.frames| > depth
        invariant Valid() && View().Drop(depth) == goal && |View().stack| == |state.frames|
        decreases |state.frames|
      {
        FinishFrame(true);
        ViewTells(state);
      }
    }

    /** Executes any block; commits may stand anywhere. */
    method Execute(b: Block<S>) returns (o: Outcome)
      requires Valid()
      modifies this
      ensures Valid() && (o, View()) == Exec(b, old(View()))
      decreases b, 0
    {
      match b {
        case Write(f) =>
          WrittenView(state, f);
          hide Session.Valid, Session.View;
          state := state.(working := f(state.working), inTransaction := true);
          o := Returned;
        case Commit =>
          CommitSqlite();
          o := Returned;
        case Throw(base) =>
          o := if base then Leaked else Raised;
        case Then(p, q) =>
          o := Execute(p);
          if o == Returned { o := Execute(q); }
        case Catch(p, q) =>
          o := Execute(p);
          if o == Raised { o := Execute(q); }
        case UnitOfWork(p, fails) =>
          o := RunUnit(p, fails);
        case WriteTxn(p, fails) =>
          o := RunTxn(p, fails);
      }
    }

    /** For a block without commits directly in a write scope the result is the
        block's nested-atomic meaning; unless it leaks, the stack is as it was. */
    method Run(b: Block<S>) returns (o: Outcome)
      requires Valid() && WellNested(b, View().Place())
      modifies this
      ensures Valid() && (o, View()) == Exec(b, old(View()))
      ensures (o, View().world) == Meaning(b, old(View().Place()), old(View().world))
      ensures (o != Leaked ==> View().stack == old(View().stack)) && Extends(old(View()), View())
    {
      ViewTells(state);
      NestedBlocksAreAtomic(b, View());
      hide Session.Valid, Session.View, Exec, Meaning, WellNested;
      o := Execute(b);
    }

    method RunUnit(p: Block<S>, fails: bool) returns (o: Outcome)
      requires Valid()
      modifies this
      ensures Valid() && (o, View()) == Exec(UnitOfWork(p, fails), old(View()))
      ensures View().stack == old(View().stack)
      decreases p, 1
    {
      ghost var m := View();
      var depth := |state.frames|;
      ViewTells(state);
      UnitEnds(m, p, fails);
      UnitUnfolds(m, p, fails);
      hide Session.Valid, Session.View, Exec, Machine.Push, Machine.LeaveUnit, Machine.Sound;
      Begin(UnitFrame);
      o := Execute(p);
      ViewTells(state);
      o := LeaveUnit(o, fails, depth);
    }

    // The end of a unit whose frame is at `depth`.
    method LeaveUnit(ended: Outcome, fails: bool, depth: nat) returns (o: Outcome)
      requires Valid() && (ended == Returned ==> state.frames != [])
      modifies this
      ensures Valid()
      ensures var refused := ended == Returned && fails && old(state.Top().name.None?);
              (o, View()) == old(View()).LeaveUnit(ended, refused, depth)
    {
      ViewTells(state);
      FlatView(state, state.durable);
      hide Session.Valid, Session.View, Machine.Pop, Machine.Drop, Machine.Sound;
      o := ended;
      if o != Returned {
        UnwindTo(depth);
      } else if fails && state.Top().name.None? {
        // COMMIT refused: nothing of the unit may survive.
        state := state.(working := state.durable, inTransaction := false, frames := [], saves := []);
        o := Raised;
      } else {
        FinishFrame(false);
      }
    }

    method RunTxn(p: Block<S>, fails: bool) returns (o: Outcome)
      requires Valid()
      modifies this
      ensures Valid() && (o, View()) == Exec(WriteTxn(p, fails), old(View()))
      decreases p, 1
    {
      TxnUnfolds(View(), p, fails);
      hide Session.Valid, Session.View, Exec, Machine.Push, Machine.LeaveTxn;
      Begin(RepositoryFrame);
      o := Execute(p);
      o := LeaveTxn(o, fails);
    }

    // The end of a write scope, whichever frame is on top by then.
    method LeaveTxn(ended: Outcome, fails: bool) returns (o: Outcome)
      requires Valid()
      modifies this
      ensures Valid() && (o, View()) == old(View()).LeaveTxn(ended, fails)
    {
      o := ended;
      ViewTells(state);
      if o == Raised {
        if state.inTransaction { RollbackSqlite(); }
      } else if o == Returned {
        var top := if state.frames == [] then Frame(RepositoryFrame, None) else state.Top();
        if fails && state.inTransaction && top == Frame(RepositoryFrame, None) {
          // COMMIT refused after the frame was popped.
          RefusedView(state);
          if state.frames != [] { state := state.(frames := state.frames[..|state.frames| - 1]); }
          o := Raised;
        } else {
          CommitSqlite();
        }
      }
    }

    /** Bounded retry of one local write operation.  `worlds` are those in which the
        attempts made began: every attempt but the last raised a lock error and was
        rolled back before the next; the last one alone decides outcome and world,
        and ended the retries by not raising, by another error, or as the fifth.
        Inside a caller's transaction there is one attempt, and no rollback. */
    method RunWithRetry(attempts: seq<Attempt<S>>) returns (o: Outcome, made: nat, ghost worlds: seq<World<S>>)
      requires Valid() && |attempts| == MAX_ATTEMPTS
      requires forall i :: 0 <= i < |attempts| ==> WellNested(attempts[i].block, View().Place())
      modifies this
      ensures Valid() && 1 <= made <= 5 && |worlds| == made && worlds[0] == old(View().world)
      ensures (o, View().world) == RetryMeaning(attempts, 0, old(View().Place()), old(View().world))
      ensures forall k :: 0 <= k < made - 1 ==> LockedOut(attempts[k], old(View().Place()), worlds[k], worlds[k + 1])
      ensures var (p, w) := Meaning(attempts[made - 1].block, old(View().Place()), worlds[made - 1]);
              o == p && View().world == if o == Raised && !old(View().world.open) then w.Rollback() else w
      ensures !old(View().world.open) && o == Raised && made < 5 ==> !attempts[made - 1].lockError
      ensures !old(View().world.open) && (forall i :: 0 <= i < |attempts| ==> attempts[i].block.WriteTxn?) ==>
                forall k :: 0 <= k < made ==> worlds[k] == old(View().world)
      ensures o != Leaked ==> View().stack == old(View().stack)
      ensures old(View().world.open) ==> made == 1
    {
      hide Exec, Meaning, Machine.Pop, Session.Valid, Session.View, LockedOut;
      made, worlds := 0, [];
      ghost var m := View();
      ViewTells(state);
      while true
        invariant Valid() && 0 <= made < MAX_ATTEMPTS && |worlds| == made
        invariant made > 0 ==> !View().world.open && !m.world.open && worlds[0] == m.world
        invariant made > 0 ==> LockedOut(attempts[made - 1], m.Place(), worlds[made - 1], View().world)
        invariant forall k :: 0 <= k < made - 1 ==> LockedOut(attempts[k], m.Place(), worlds[k], worlds[k + 1])
        invariant View().stack == m.stack
        invariant made == 0 ==> View().world == m.world
        invariant RetryMeaning(attempts, made, m.Place(), View().world)
               == RetryMeaning(attempts, 0, m.Place(), m.world)
        decreases MAX_ATTEMPTS - made
      {
        ViewTells(state);
        var callerOpen := state.inTransaction;
        var attempt := attempts[made];
        ghost var begun := View().world;
        worlds := worlds + [begun];
        o := Run(attempt.block);
        made := made + 1;
        ViewTells(state);
        if o != Raised {
          ScopesBeginAlike(attempts, m, worlds);
          return;
        }
        if !callerOpen && state.inTransaction {
          RollbackSqlite();
        }
        if callerOpen || !attempt.lockError || made >= MAX_ATTEMPTS {
          ScopesBeginAlike(attempts, m, worlds);
          return;
        }
        LockIsNoted(attempt, m.Place(), begun, View().world);
      }
    }
  }

  // An attempt that began in w raised a lock error, and was rolled back to w1.
  ghost predicate LockedOut<S>(a: Attempt<S>, place: Place, w: World<S>, w1: World<S>) {
    a.lockError && Meaning(a.block, place, w).0 == Raised && w1 == Meaning(a.block, place, w).1.Rollback()
  }

  lemma LockIsNoted<S>(a: Attempt<S>, place: Place, w: World<S>, w1: World<S>)
    requires a.lockError && Meaning(a.block, place, w).0 == Raised && w1 == Meaning(a.block, place, w).1.Rollback()
    ensures LockedOut(a, place, w, w1)
  {
  }

  // With one write scope per attempt each begins where the first did.
  lemma ScopesBeginAlike<S>(attempts: seq<Attempt<S>>, m: Machine<S>, worlds: seq<World<S>>)
    requires m.Sound() && 0 < |worlds| <= |attempts| && worlds[0] == m.world
    requires forall i :: 0 <= i < |attempts| ==> WellNested(attempts[i].block, m.Place())
    requires forall k :: 0 <= k < |worlds| - 1 ==> LockedOut(attempts[k], m.Place(), worlds[k], worlds[k + 1])
    ensures !m.world.open && (forall i :: 0 <= i < |attempts| ==> attempts[i].block.WriteTxn?) ==>
              forall k :: 0 <= k < |worlds| ==> worlds[k] == m.world
  {
    if !m.world.open && forall i :: 0 <= i < |attempts| ==> attempts[i].block.WriteTxn? {
      for n := 1 to |worlds|
        invariant forall k :: 0 <= k < n ==> worlds[k] == m.world
      {
        var b := attempts[n - 1].block;
        assert LockedOut(attempts[n - 1], m.Place(), worlds[n - 1], worlds[n]);
        OutermostTxnIsAtomic(b.body, b.commitFails, m.world);
      }
    }
  }

  lemma WrittenView<S>(s: Session<S>, f: S -> S)
    requires s.Valid()
    ensures var u := s.(working := f(s.working), inTransaction := true);
            u.Valid() && u.View() == s.View().(world := s.View().world.(working := f(s.working), open := true))
  {
  }

  // The frame of a refused COMMIT taken off, the transaction still open.
  lemma RefusedView<S>(s: Session<S>)
    requires s.Valid() && s.View().Commits()
    ensures var u := if s.frames == [] then s else s.(frames := s.frames[..|s.frames| - 1]);
            u.Valid() && u.View() == s.View().Refused()
  {
    if s.frames != [] { LevelsShrink(s.frames, s.saves, s.durable, s.durable); }
  }
}
