/**
 The tie from alarm states to verification tasks over whole histories: an open
 window names the task that owns its key, and no other such task is waiting.
 */
module VerificationTasks {
  import opened Base
  import opened AlarmLifecycle
  import opened TaskStore
  import Local = MonitorProjection
  import Runs = TaskRuns

  // A verification or recovery window, by what its task's key names.
  datatype Window = AlarmWindow(device: string, start: int)
                  | RecoveryWindow(device: string, alarm: Option<nat>, start: int)

  function KeyFor(v: Window): string {
    match v
    case AlarmWindow(device, start) => Local.AlarmKey(device, start)
    case RecoveryWindow(device, alarm, start) => Local.RecoveryKey(device, alarm, start)
  }

  function KindOf(v: Window): string { if v.AlarmWindow? then "VERIFY_ALARM" else "VERIFY_RECOVERY" }

  function EndOf(win: Windows, v: Window): int {
    v.start + if v.AlarmWindow? then win.verifyAfter else win.recoveryAfter
  }

  // ------------------------------------------------------- keys name one window

  lemma {:induction false} HexDigits(n: nat)
    ensures HexText(n) != [] && forall i :: 0 <= i < |HexText(n)| ==> HexText(n)[i] in "0123456789abcdef"
  {
    if n >= 16 { HexDigits(n / 16); }
  }

  lemma DigitsDiffer(i: nat, j: nat)
    requires i < 16 && j < 16 && "0123456789abcdef"[i] == "0123456789abcdef"[j]
    ensures i == j
  {
  }

  lemma {:induction false} HexIsInjective(m: nat, n: nat)
    requires HexText(m) == HexText(n)
    ensures m == n
  {
    var s, t := HexText(m), HexText(n);
    assert s[|s| - 1] == t[|t| - 1];
    DigitsDiffer(m % 16, n % 16);
    if m >= 16 && n >= 16 {
      assert HexText(m / 16) == s[..|s| - 1] && HexText(n / 16) == t[..|t| - 1];
      HexIsInjective(m / 16, n / 16);
    } else {
      if m >= 16 { HexDigits(m / 16); }
      if n >= 16 { HexDigits(n / 16); }
    }
  }

  lemma IntTextIsInjective(m: int, n: int)
    requires Local.IntText(m) == Local.IntText(n)
    ensures m == n
  {
    hide HexText;
    HexDigits(if m < 0 then -m else m);
    HexDigits(if n < 0 then -n else n);
    assert Local.IntText(m)[0] == Local.IntText(n)[0];
    if m < 0 && n < 0 {
      assert HexText(-m) == Local.IntText(m)[1..] && HexText(-n) == Local.IntText(n)[1..];
      HexIsInjective(-m, -n);
    } else if m >= 0 && n >= 0 {
      HexIsInjective(m, n);
    }
  }

  lemma NoColon(n: int)
    ensures ':' !in Local.IntText(n)
  {
    HexDigits(if n < 0 then -n else n);
  }

  lemma AlarmTextIsInjective(a: Option<nat>, b: Option<nat>)
    ensures ':' !in Local.AlarmText(a)
    ensures Local.AlarmText(a) == Local.AlarmText(b) ==> a == b
  {
    hide HexText;
    if a.Some? { HexDigits(a.value); }
    if b.Some? { HexDigits(b.value); }
    if a.Some? && b.Some? && Local.AlarmText(a) == Local.AlarmText(b) { HexIsInjective(a.value, b.value); }
    if Local.AlarmText(a) == Local.AlarmText(b) { assert Local.AlarmText(a)[0] == Local.AlarmText(b)[0]; }
  }

  // A text splits at its last colon in one way.
  lemma LastColon(a: string, b: string, c: string, d: string)
    requires a + ":" + b == c + ":" + d && ':' !in b && ':' !in d
    ensures a == c && b == d
  {
    var s := a + ":" + b;
    assert s[|a|] == ':' && s[|c|] == ':';
    assert forall k :: |a| < k < |s| ==> s[k] == b[k - |a| - 1];
    assert forall k :: |c| < k < |s| ==> s[k] == d[k - |c| - 1];
    assert a == s[..|a|] && c == s[..|c|];
    assert b == s[|a| + 1..] && d == s[|c| + 1..];
  }

  /** No two windows share a key. */
  lemma KeysNameOneWindow(v: Window, u: Window)
    requires KeyFor(v) == KeyFor(u)
    ensures v == u
  {
    NoColon(v.start);
    NoColon(u.start);
    assert KeyFor(v)[7] == KeyFor(u)[7];
    if v.AlarmWindow? && u.AlarmWindow? {
      var p, q := "VERIFY_ALARM:" + v.device, "VERIFY_ALARM:" + u.device;
      LastColon(p, Local.IntText(v.start), q, Local.IntText(u.start));
      IntTextIsInjective(v.start, u.start);
      assert v.device == p[13..] && u.device == q[13..];
    } else if v.RecoveryWindow? && u.RecoveryWindow? {
      var p, q := "VERIFY_RECOVERY:" + v.device, "VERIFY_RECOVERY:" + u.device;
      var a, b := Local.AlarmText(v.alarm), Local.AlarmText(u.alarm);
      LastColon(p + ":" + a, Local.IntText(v.start), q + ":" + b, Local.IntText(u.start));
      IntTextIsInjective(v.start, u.start);
      AlarmTextIsInjective(v.alarm, u.alarm);
      AlarmTextIsInjective(u.alarm, v.alarm);
      LastColon(p, a, q, b);
      assert v.device == p[16..] && u.device == q[16..];
    }
  }

  // ------------------------------------------------------- steps

  datatype World = World(states: map<string, AlarmState>, tasks: Store, begun: set<Window>, left: set<Id>)

  // One committed sample, or any other change of the task table.  `alarm` is the
  // event a creation names; `left` collects ended tasks left to the scheduler.
  datatype Step =
    | Handle(x: Local.Observation, alarm: Option<nat>, newTask: Id, pending: Option<Id>, newArm: Id,
              event: Option<nat>, winner: Option<Id>)
    | Work(op: Runs.Op)

  function PrevOf(w: World, st: Step): AlarmState
    requires st.Handle?
  {
    Local.StateOf(w.states, st.x.device)
  }

  function TransitionOf(win: Windows, w: World, st: Step): Transition
    requires st.Handle?
  {
    Apply(win, PrevOf(w, st), st.x.reading, st.x.now)
  }

  function Projected(win: Windows, w: World, st: Step): Store
    requires st.Handle?
  {
    Local.TasksAfter(win, w.tasks, PrevOf(w, st), TransitionOf(win, w, st), st.x, st.newTask)
  }

  // The window a sample opens.
  function Begins(win: Windows, w: World, st: Step): Option<Window>
    requires st.Handle?
  {
    var prev, tr := PrevOf(w, st), TransitionOf(win, w, st);
    if prev.life != Verifying && tr.next.life == Verifying then
      Some(AlarmWindow(st.x.device, tr.next.violationAt.GetOr(st.x.now)))
    else if prev.life != Recovering && tr.next.life == Recovering && win.recoveryAfter > 0 then
      Some(RecoveryWindow(st.x.device, tr.next.alarmId, tr.next.recoveryAt.GetOr(st.x.now)))
    else None
  }

  predicate Verifies(kind: string) { kind == "VERIFY_ALARM" || kind == "VERIFY_RECOVERY" }

  predicate Foreign(key: string) { !("VERIFY_" <= key) }

  // Only samples create and only the scheduler and samples finish these tasks.
  predicate Keeps(s: Store, op: Runs.Op) {
    && ((op.New? || op.NewUnfinished?) ==> !Verifies(op.req.taskType) && Foreign(op.req.key))
    && (op.Postpone? && op.id in s.rows ==> !Verifies(s.rows[op.id].taskType))
  }

  ghost predicate Legal(win: Windows, w: World, st: Step) {
    match st
    case Handle(x, alarm, newTask, pending, newArm, event, winner) =>
      var tr := TransitionOf(win, w, st);
      && newTask !in w.tasks.rows && newArm !in w.tasks.rows && newTask != newArm && x.device != ""
      && Local.IsPending(win, Projected(win, w, st), PrevOf(w, st), tr, x, pending)
      && (x.gates.Enabled() && Local.HasEventAction(tr.actions) ==>
            IsWinner(Projected(win, w, st), Local.ReconcileRequest(x, event), winner))
      && Local.TasksArmed(Projected(win, w, st), x, tr.actions, event, newArm, winner).Ok?
    case Work(op) => Runs.Enabled(w.tasks, op) && Keeps(w.tasks, op)
  }

  function Do(win: Windows, w: World, st: Step): World {
    match st
    case Handle(x, alarm, newTask, pending, newArm, event, winner) =>
      var prev, tr := PrevOf(w, st), TransitionOf(win, w, st);
      var s := Projected(win, w, st);
      var id := if CreateAlarmEvent in tr.actions then alarm else tr.next.alarmId;
      World(w.states[x.device := tr.next.(alarmId := id, taskId := pending, episode := x.episode)],
            Runs.OrSame(Local.TasksArmed(s, x, tr.actions, event, newArm, winner), s),
            match Begins(win, w, st) case None => w.begun case Some(v) => w.begun + {v},
            LeftAfter(w.left, Local.Ended(prev, tr), x))
    case Work(op) => w.(tasks := Runs.Next(w.tasks, op))
  }

  function LeftAfter(left: set<Id>, id: Option<Id>, x: Local.Observation): set<Id> {
    if id.Some? && id == x.schedulerTask then left + {id.value} else left
  }

  // ------------------------------------------------------- invariant

  // A row that serves window v: of its kind and device, and never due before its end.
  predicate Serves(win: Windows, t: Task, v: Window) {
    && t.key == Some(KeyFor(v)) && t.taskType == KindOf(v) && t.entity == v.device
    && EndOf(win, v) <= t.due
    && (t.status == Running ==> t.lease.Some? && EndOf(win, v) <= t.lease.value)
  }

  ghost predicate RowsOk(win: Windows, s: Store, begun: set<Window>) {
    && (forall id, v :: id in s.rows && s.rows[id].key == Some(KeyFor(v)) ==> v in begun && Serves(win, s.rows[id], v))
    && (forall id :: id in s.rows && Verifies(s.rows[id].taskType) ==> HasWindow(s.rows[id], begun))
    && (forall v :: v in begun ==> HasRow(s, v))
  }

  ghost predicate HasWindow(t: Task, begun: set<Window>) { exists v :: v in begun && t.key == Some(KeyFor(v)) }

  ghost predicate HasRow(s: Store, v: Window) { exists id :: id in s.rows && s.rows[id].key == Some(KeyFor(v)) }

  // The window a state is in.
  function WindowOf(d: string, s: AlarmState): Option<Window> {
    if s.life == Verifying then Some(AlarmWindow(d, s.violationAt.GetOr(0)))
    else if s.life == Recovering then Some(RecoveryWindow(d, s.alarmId, s.recoveryAt.GetOr(0)))
    else None
  }

  predicate StateOk(s: AlarmState, d: string, t: Store) {
    && (s.life == Verifying ==> s.violationAt.Some?)
    && (s.life == Recovering ==> s.recoveryAt.Some?)
    && match WindowOf(d, s)
       case None => s.taskId == None
       case Some(v) => s.taskId.Some? && s.taskId.value in t.rows && t.rows[s.taskId.value].key == Some(KeyFor(v))
  }

  // A waiting or running verification task is the one its device's state names,
  // or it was left to the scheduler that ran it when its window ended.
  predicate Named(w: World, id: Id)
    requires id in w.tasks.rows
  {
    Local.StateOf(w.states, w.tasks.rows[id].entity).taskId == Some(id) || id in w.left
  }

  ghost predicate Inv(win: Windows, w: World) {
    && UniqueKeys(w.tasks) && RowsOk(win, w.tasks, w.begun)
    && (forall d :: StateOk(Local.StateOf(w.states, d), d, w.tasks))
    && (forall id :: id in w.tasks.rows && Verifies(w.tasks.rows[id].taskType) && w.tasks.rows[id].Unfinished() ==>
          Named(w, id))
  }

  // ------------------------------------------------------- one table operation

  lemma WindowKeysAreReserved(v: Window)
    ensures !Foreign(KeyFor(v))
  {
    hide Local.IntText, Local.AlarmText;
  }

  lemma HistoryIsForeign(key: string, id: Id)
    requires Foreign(key)
    ensures Foreign(HistoryKey(key, id))
  {
    hide HexText;
    var h := HistoryKey(key, id);
    if |key| < 7 { assert h[|key|] == ':'; }
    else { assert h[..7] == key[..7]; }
  }

  // No operation but a sample's gives a row a reserved key.
  lemma KeyFate(s: Store, op: Runs.Op, id: Id, key: string)
    requires Runs.Enabled(s, op) && Keeps(s, op) && !Foreign(key)
    requires id in Runs.Next(s, op).rows && Runs.Next(s, op).rows[id].key == Some(key)
    ensures id in s.rows && s.rows[id].key == Some(key)
  {
    hide IsWinner, ArchiveClash, HistoryKey, SameWork, Quarantinable, Stale;
    if op.NewUnfinished? {
      HistoryIsForeign(op.req.key, id);
      AdoptedKeys(s, op.id, op.req, op.winner, id, key);
    }
  }

  lemma AdoptedKeys(s: Store, newId: Id, req: Request, w: Option<Id>, id: Id, key: string)
    requires newId !in s.rows && Foreign(req.key) && Foreign(HistoryKey(req.key, id)) && !Foreign(key)
    requires var u := Runs.OrSame(CreateUnfinished(s, newId, req, w), s); id in u.rows && u.rows[id].key == Some(key)
    ensures id in s.rows && s.rows[id].key == Some(key)
  {
    hide IsWinner, ArchiveClash, HistoryKey, SameWork, Foreign;
  }

  // A row that serves a window goes on serving it, and a finished one stays so.
  lemma ServesOn(win: Windows, s: Store, op: Runs.Op, id: Id, v: Window)
    requires Runs.Enabled(s, op) && Keeps(s, op) && id in s.rows && Serves(win, s.rows[id], v)
    ensures id in Runs.Next(s, op).rows && Serves(win, Runs.Next(s, op).rows[id], v)
    ensures Runs.Next(s, op).rows[id].Unfinished() ==> s.rows[id].Unfinished()
  {
    WindowKeysAreReserved(v);
    hide KeyFor, EndOf, IsWinner, ArchiveClash, HistoryKey, Foreign, Quarantinable;
    if op.NewUnfinished? { AdoptionLeavesAlone(s, op.id, op.req, op.winner, id); }
    else if op.Take? && id in op.ids { assert Candidate(Quarantine(s, op.now), id, op.now, {}); }
  }

  lemma AdoptionLeavesAlone(s: Store, newId: Id, req: Request, w: Option<Id>, id: Id)
    requires newId !in s.rows && IsWinner(s, req, w) && id in s.rows
    requires s.rows[id].taskType != req.taskType && s.rows[id].key != Some(req.key)
    ensures var u := Runs.OrSame(CreateUnfinished(s, newId, req, w), s); id in u.rows && u.rows[id] == s.rows[id]
  {
    hide ArchiveClash, HistoryKey;
  }

  lemma OpKeepsRows(win: Windows, s: Store, op: Runs.Op, begun: set<Window>)
    requires Runs.Enabled(s, op) && Keeps(s, op) && UniqueKeys(s) && RowsOk(win, s, begun)
    ensures UniqueKeys(Runs.Next(s, op)) && RowsOk(win, Runs.Next(s, op), begun)
  {
    Runs.KeysStayUnique(s, op);
    hide Runs.Next, Runs.Enabled, Keeps, Serves, UniqueKeys, KeyFor, HasRow, HasWindow, Verifies;
    var u := Runs.Next(s, op);
    forall id, v | id in u.rows && u.rows[id].key == Some(KeyFor(v)) ensures v in begun && Serves(win, u.rows[id], v) {
      KeyedStays(win, s, op, begun, id, v);
    }
    forall id | id in u.rows && Verifies(u.rows[id].taskType) ensures HasWindow(u.rows[id], begun) {
      OldVerifier(s, op, id);
      assert HasWindow(s.rows[id], begun);
      WindowStays(win, s, op, begun, id);
    }
    forall v | v in begun ensures HasRow(u, v) {
      assert HasRow(s, v);
      RowStays(win, s, op, begun, v);
    }
  }

  lemma KeyedStays(win: Windows, s: Store, op: Runs.Op, begun: set<Window>, id: Id, v: Window)
    requires Runs.Enabled(s, op) && Keeps(s, op) && RowsOk(win, s, begun)
    requires id in Runs.Next(s, op).rows && Runs.Next(s, op).rows[id].key == Some(KeyFor(v))
    ensures v in begun && Serves(win, Runs.Next(s, op).rows[id], v)
  {
    hide Runs.Next, Runs.Enabled, Keeps, Serves, KeyFor, HasRow, HasWindow, Foreign;
    WindowKeysAreReserved(v);
    KeyFate(s, op, id, KeyFor(v));
    NamedServes(win, s, begun, id, v);
    ServesOn(win, s, op, id, v);
  }

  lemma WindowStays(win: Windows, s: Store, op: Runs.Op, begun: set<Window>, id: Id)
    requires Runs.Enabled(s, op) && Keeps(s, op) && RowsOk(win, s, begun) && id in s.rows
    requires HasWindow(s.rows[id], begun)
    ensures id in Runs.Next(s, op).rows && HasWindow(Runs.Next(s, op).rows[id], begun)
  {
    var v :| v in begun && s.rows[id].key == Some(KeyFor(v));
    NamedServes(win, s, begun, id, v);
    hide RowsOk, Runs.Next, Runs.Enabled, Keeps, Serves, KeyFor;
    ServesOn(win, s, op, id, v);
    ServesItsKey(win, Runs.Next(s, op).rows[id], v);
  }

  lemma RowStays(win: Windows, s: Store, op: Runs.Op, begun: set<Window>, v: Window)
    requires Runs.Enabled(s, op) && Keeps(s, op) && RowsOk(win, s, begun) && HasRow(s, v)
    ensures HasRow(Runs.Next(s, op), v)
  {
    var id :| id in s.rows && s.rows[id].key == Some(KeyFor(v));
    NamedServes(win, s, begun, id, v);
    hide RowsOk, Runs.Next, Runs.Enabled, Keeps, Serves, KeyFor;
    ServesOn(win, s, op, id, v);
    ServesItsKey(win, Runs.Next(s, op).rows[id], v);
  }

  lemma ServesItsKey(win: Windows, t: Task, v: Window)
    requires Serves(win, t, v)
    ensures t.key == Some(KeyFor(v)) && t.taskType == KindOf(v) && t.entity == v.device && EndOf(win, v) <= t.due
  {
  }

  lemma OldVerifier(s: Store, op: Runs.Op, id: Id)
    requires Runs.Enabled(s, op) && Keeps(s, op)
    requires id in Runs.Next(s, op).rows && Verifies(Runs.Next(s, op).rows[id].taskType)
    ensures id in s.rows && Verifies(s.rows[id].taskType)
  {
    hide Verifies, Foreign;
    if id in s.rows { Runs.RowFate(s, op, id); }
    else { Runs.NewRowFate(s, op, id); }
  }

  // The task of a window that opens: the owner of its key, or a new row.
  lemma CreateKeepsRows(win: Windows, s: Store, newTask: Id, req: Request, v: Window, begun: set<Window>)
    requires UniqueKeys(s) && RowsOk(win, s, begun) && newTask !in s.rows
    requires req == Local.VerifyRequest(KindOf(v), v.device, KeyFor(v), EndOf(win, v), req.createdAt)
    ensures UniqueKeys(Create(s, newTask, req, true)) && RowsOk(win, Create(s, newTask, req, true), begun + {v})
    ensures v in begun <==> KeyTaken(s, req.key)
    ensures v in begun ==> Create(s, newTask, req, true) == s
  {
    Runs.KeysStayUnique(s, Runs.New(newTask, req, true));
    TakenIffBegun(win, s, begun, v);
    hide UniqueKeys, KeyFor, EndOf, KeyTaken, HasRow, HasWindow;
    if v in begun {
      assert begun + {v} == begun;
    } else {
      NewRowKeepsRows(win, s, newTask, req, v, begun);
    }
  }

  lemma TakenIffBegun(win: Windows, s: Store, begun: set<Window>, v: Window)
    requires RowsOk(win, s, begun)
    ensures v in begun <==> KeyTaken(s, KeyFor(v))
  {
    hide KeyFor, Serves, HasWindow;
    if v in begun {
      assert HasRow(s, v);
      var id :| id in s.rows && s.rows[id].key == Some(KeyFor(v));
      assert Owns(s, id, KeyFor(v));
    }
    if KeyTaken(s, KeyFor(v)) {
      var id :| id in s.rows && Owns(s, id, KeyFor(v));
      NamedServes(win, s, begun, id, v);
    }
  }

  lemma NewRowKeepsRows(win: Windows, s: Store, newTask: Id, req: Request, v: Window, begun: set<Window>)
    requires RowsOk(win, s, begun) && newTask !in s.rows && v !in begun && !KeyTaken(s, req.key)
    requires req == Local.VerifyRequest(KindOf(v), v.device, KeyFor(v), EndOf(win, v), req.createdAt)
    ensures RowsOk(win, Create(s, newTask, req, true), begun + {v})
  {
    hide KeyFor, EndOf, KeyTaken, HasRow, HasWindow;
    var u := Create(s, newTask, req, true);
    assert u.rows[newTask].key == Some(KeyFor(v));
    forall id, a | id in u.rows && u.rows[id].key == Some(KeyFor(a))
      ensures a in begun + {v} && Serves(win, u.rows[id], a)
    {
      if id == newTask { KeysNameOneWindow(a, v); }
    }
    forall id | id in u.rows && Verifies(u.rows[id].taskType) ensures HasWindow(u.rows[id], begun + {v}) {
      MoreWindows(u.rows[id], begun, v);
    }
    forall a | a in begun + {v} ensures HasRow(u, a) {
      MoreRows(s, u, newTask, v, a);
    }
  }

  lemma MoreWindows(t: Task, begun: set<Window>, v: Window)
    requires HasWindow(t, begun) || t.key == Some(KeyFor(v))
    ensures HasWindow(t, begun + {v})
  {
    if t.key != Some(KeyFor(v)) { var a :| a in begun && t.key == Some(KeyFor(a)); }
  }

  lemma MoreRows(s: Store, u: Store, newTask: Id, v: Window, a: Window)
    requires newTask !in s.rows && newTask in u.rows && u.rows[newTask].key == Some(KeyFor(v))
    requires forall id :: id in s.rows ==> id in u.rows && u.rows[id] == s.rows[id]
    requires a == v || HasRow(s, a)
    ensures HasRow(u, a)
  {
    hide KeyFor;
    if a != v { var id :| id in s.rows && s.rows[id].key == Some(KeyFor(a)); }
  }

  // ------------------------------------------------------- one sample

  // Cancelling the task of an ended window is an operation like any other's.
  lemma SkippingKeepsRows(win: Windows, s: Store, id: Option<Id>, x: Local.Observation, begun: set<Window>)
    requires UniqueKeys(s) && RowsOk(win, s, begun)
    ensures UniqueKeys(Local.Skipped(s, id, x)) && RowsOk(win, Local.Skipped(s, id, x), begun)
  {
    hide RowsOk, UniqueKeys, Cancel;
    if id.Some? && id != x.schedulerTask { OpKeepsRows(win, s, Runs.Drop(id.value, x.now), begun); }
  }

  lemma BeginsOpens(win: Windows, w: World, st: Step)
    requires st.Handle?
    ensures var r := Local.Opened(win, PrevOf(w, st), TransitionOf(win, w, st), st.x);
            match Begins(win, w, st)
            case None => r == None
            case Some(v) => r == Some(Local.VerifyRequest(KindOf(v), v.device, KeyFor(v), EndOf(win, v), st.x.now))
  {
    hide Local.IntText, Local.AlarmText, Local.AlarmKey, Local.RecoveryKey, Apply;
  }

  lemma ProjectionKeepsRows(win: Windows, w: World, st: Step)
    requires st.Handle? && UniqueKeys(w.tasks) && RowsOk(win, w.tasks, w.begun) && st.newTask !in w.tasks.rows
    ensures UniqueKeys(Projected(win, w, st)) && RowsOk(win, Projected(win, w, st), Do(win, w, st).begun)
    ensures Projected(win, w, st).rows.Keys <= w.tasks.rows.Keys + {st.newTask}
  {
    BeginsOpens(win, w, st);
    var prev, tr := PrevOf(w, st), TransitionOf(win, w, st);
    hide RowsOk, UniqueKeys, TransitionOf, Local.Opened, Begins;
    var s1 := Local.Skipped(w.tasks, Local.Ended(prev, tr), st.x);
    SkippingKeepsRows(win, w.tasks, Local.Ended(prev, tr), st.x, w.begun);
    Local.SkippedKeepsKeys(w.tasks, Local.Ended(prev, tr), st.x);
    Local.ProjectionAddsOne(win, w.tasks, prev, tr, st.x, st.newTask);
    match Begins(win, w, st)
    case None =>
    case Some(v) =>
      var req := Local.VerifyRequest(KindOf(v), v.device, KeyFor(v), EndOf(win, v), st.x.now);
      CreateKeepsRows(win, s1, st.newTask, req, v, w.begun);
  }

  lemma ReconcileIsForeign(x: Local.Observation, event: Option<nat>)
    ensures Foreign(Local.ReconcileRequest(x, event).key)
  {
    hide Local.IdText;
    assert Local.ReconcileRequest(x, event).key[0] == 'R';
  }

  // Arming the reconciliation is an operation like any other's, too.
  lemma ArmingIsWork(win: Windows, w: World, st: Step)
    requires st.Handle? && Legal(win, w, st)
    ensures var s, u := Projected(win, w, st), Do(win, w, st).tasks;
            u == s || (exists op :: Runs.Enabled(s, op) && Keeps(s, op) && u == Runs.Next(s, op))
  {
    var s, tr := Projected(win, w, st), TransitionOf(win, w, st);
    Local.ProjectionAddsOne(win, w.tasks, PrevOf(w, st), tr, st.x, st.newTask);
    if st.x.gates.Enabled() && Local.HasEventAction(tr.actions) {
      var op := Runs.NewUnfinished(st.newArm, Local.ReconcileRequest(st.x, st.event), st.winner);
      ReconcileIsForeign(st.x, st.event);
      hide TransitionOf, Projected, CreateUnfinished, IsWinner, Local.IdText, Foreign;
      assert Runs.Enabled(s, op) && Keeps(s, op);
      assert Do(win, w, st).tasks == Runs.Next(s, op);
    }
  }

  lemma HandleKeepsRows(win: Windows, w: World, st: Step)
    requires st.Handle? && Legal(win, w, st) && UniqueKeys(w.tasks) && RowsOk(win, w.tasks, w.begun)
    ensures UniqueKeys(Do(win, w, st).tasks) && RowsOk(win, Do(win, w, st).tasks, Do(win, w, st).begun)
  {
    ProjectionKeepsRows(win, w, st);
    ArmingIsWork(win, w, st);
    hide Legal, RowsOk, UniqueKeys, Projected, Do, Keeps, Runs.Next, Runs.Enabled;
    var s, u := Projected(win, w, st), Do(win, w, st).tasks;
    if u != s {
      var op :| Runs.Enabled(s, op) && Keeps(s, op) && u == Runs.Next(s, op);
      OpKeepsRows(win, s, op, Do(win, w, st).begun);
    }
  }

  // What a sample does to a row that serves a window, other than ending the window.
  lemma RowThroughSample(win: Windows, w: World, st: Step, id: Id, v: Window)
    requires st.Handle? && Legal(win, w, st) && id in w.tasks.rows && Serves(win, w.tasks.rows[id], v)
    ensures id in Do(win, w, st).tasks.rows && Serves(win, Do(win, w, st).tasks.rows[id], v)
    ensures Do(win, w, st).tasks.rows[id].Unfinished() ==>
              w.tasks.rows[id].Unfinished()
              && (Local.Ended(PrevOf(w, st), TransitionOf(win, w, st)) == Some(id) ==> st.x.schedulerTask == Some(id))
  {
    var ended := Local.Ended(PrevOf(w, st), TransitionOf(win, w, st));
    var s1 := Local.Skipped(w.tasks, ended, st.x);
    if ended.Some? && ended != st.x.schedulerTask { ServesOn(win, w.tasks, Runs.Drop(ended.value, st.x.now), id, v); }
    Local.SkippedKeepsKeys(w.tasks, ended, st.x);
    var s, u := Projected(win, w, st), Do(win, w, st).tasks;
    ArmingIsWork(win, w, st);
    assert id in s1.rows && Serves(win, s1.rows[id], v);
    assert id in s.rows && s.rows[id] == s1.rows[id] by { OldRowsStay(win, w, st, id); }
    hide Legal, Projected, Do, Keeps, Runs.Next, Runs.Enabled, TransitionOf, Serves, Local.Skipped, Local.Ended;
    if u != s {
      var op :| Runs.Enabled(s, op) && Keeps(s, op) && u == Runs.Next(s, op);
      ServesOn(win, s, op, id, v);
    }
  }

  lemma OldRowsStay(win: Windows, w: World, st: Step, id: Id)
    requires st.Handle? && st.newTask !in w.tasks.rows && id in w.tasks.rows
    ensures var s1 := Local.Skipped(w.tasks, Local.Ended(PrevOf(w, st), TransitionOf(win, w, st)), st.x);
            id in s1.rows && id in Projected(win, w, st).rows && Projected(win, w, st).rows[id] == s1.rows[id]
  {
    Local.SkippedKeepsKeys(w.tasks, Local.Ended(PrevOf(w, st), TransitionOf(win, w, st)), st.x);
    hide Local.Opened, TransitionOf, Local.Skipped, Local.Ended;
  }

  // Rows that name a window serve it, before and after.
  lemma NamedServes(win: Windows, s: Store, begun: set<Window>, id: Id, v: Window)
    requires RowsOk(win, s, begun) && id in s.rows && s.rows[id].key == Some(KeyFor(v))
    ensures v in begun && Serves(win, s.rows[id], v)
  {
  }

  lemma LifeAfter(win: Windows, w: World, st: Step)
    requires st.Handle? && win.Valid() && StateOk(PrevOf(w, st), st.x.device, w.tasks)
    ensures var prev, tr, d := PrevOf(w, st), TransitionOf(win, w, st), st.x.device;
            var s := Local.StateOf(Do(win, w, st).states, d);
            && s.taskId == st.pending && s.life == tr.next.life
            && (s.life == Verifying ==> s.violationAt.Some?) && (s.life == Recovering ==> s.recoveryAt.Some?)
            && (Begins(win, w, st).Some? ==> WindowOf(d, s) == Begins(win, w, st) && prev.taskId == None)
            && (Begins(win, w, st).None? && s.life == prev.life ==>
                  WindowOf(d, s) == WindowOf(d, prev) && tr.next.taskId == prev.taskId)
            && (Begins(win, w, st).None? && s.life != prev.life ==> WindowOf(d, s) == None && tr.next.taskId == None)
            && (s.life == prev.life ==> Local.Ended(prev, tr) == None)
            && (s.life != prev.life && Begins(win, w, st).None? ==> Local.Ended(prev, tr) == prev.taskId)
  {
    hide Projected, Local.TasksArmed, LeftAfter;
  }

  lemma HandleKeepsStates(win: Windows, w: World, st: Step, d: string)
    requires st.Handle? && win.Valid() && Legal(win, w, st) && Inv(win, w)
    ensures StateOk(Local.StateOf(Do(win, w, st).states, d), d, Do(win, w, st).tasks)
  {
    var s := Local.StateOf(w.states, d);
    assert StateOk(s, d, w.tasks) && StateOk(PrevOf(w, st), st.x.device, w.tasks);
    OtherStatesStay(win, w, st, d);
    LifeAfter(win, w, st);
    BeginsOpens(win, w, st);
    if WindowOf(d, s).Some? && !(d == st.x.device && Begins(win, w, st).Some?) {
      NamedServes(win, w.tasks, w.begun, s.taskId.value, WindowOf(d, s).value);
      RowThroughSample(win, w, st, s.taskId.value, WindowOf(d, s).value);
      ServesItsKey(win, Do(win, w, st).tasks.rows[s.taskId.value], WindowOf(d, s).value);
    }
    if d == st.x.device && Begins(win, w, st).Some? { PendingOwns(win, w, st, Begins(win, w, st).value); }
    if Begins(win, w, st).None? { PendingIsNext(win, w, st); }
    hide Legal, Inv, Do, Projected, TransitionOf, Begins, Serves, KeyFor;
  }

  lemma OtherStatesStay(win: Windows, w: World, st: Step, d: string)
    requires st.Handle?
    ensures d != st.x.device ==> Local.StateOf(Do(win, w, st).states, d) == Local.StateOf(w.states, d)
    ensures d == st.x.device ==> Local.StateOf(w.states, d) == PrevOf(w, st)
  {
    hide Projected, Local.TasksArmed, TransitionOf, Begins;
  }

  lemma PendingIsNext(win: Windows, w: World, st: Step)
    requires st.Handle? && Legal(win, w, st) && Begins(win, w, st).None?
    ensures st.pending == TransitionOf(win, w, st).next.taskId
  {
    BeginsOpens(win, w, st);
    hide TransitionOf, Projected, Begins, Local.Opened, Local.TasksArmed;
  }

  lemma PendingOwns(win: Windows, w: World, st: Step, v: Window)
    requires st.Handle? && Legal(win, w, st) && Begins(win, w, st) == Some(v)
    requires UniqueKeys(w.tasks) && RowsOk(win, w.tasks, w.begun)
    ensures st.pending.Some? && st.pending.value in Do(win, w, st).tasks.rows
    ensures Do(win, w, st).tasks.rows[st.pending.value].key == Some(KeyFor(v))
    ensures st.pending.value in Projected(win, w, st).rows
    ensures Projected(win, w, st).rows[st.pending.value].key == Some(KeyFor(v))
  {
    BeginsOpens(win, w, st);
    ProjectionKeepsRows(win, w, st);
    ArmingIsWork(win, w, st);
    var s, u, id := Projected(win, w, st), Do(win, w, st).tasks, st.pending.value;
    NamedServes(win, s, Do(win, w, st).begun, id, v);
    hide Legal, RowsOk, UniqueKeys, Projected, Do, Keeps, Runs.Next, Runs.Enabled, TransitionOf, Begins, Serves;
    if u != s {
      var op :| Runs.Enabled(s, op) && Keeps(s, op) && u == Runs.Next(s, op);
      ServesOn(win, s, op, id, v);
      ServesItsKey(win, u.rows[id], v);
    }
  }

  lemma HandleKeepsNames(win: Windows, w: World, st: Step, id: Id)
    requires st.Handle? && win.Valid() && Legal(win, w, st) && Inv(win, w)
    requires id in Do(win, w, st).tasks.rows && Verifies(Do(win, w, st).tasks.rows[id].taskType)
    requires Do(win, w, st).tasks.rows[id].Unfinished()
    ensures Named(Do(win, w, st), id)
  {
    if id in w.tasks.rows { OldRowIsNamed(win, w, st, id); }
    else { NewRowIsPending(win, w, st, id); }
  }

  lemma OldRowIsNamed(win: Windows, w: World, st: Step, id: Id)
    requires st.Handle? && win.Valid() && Legal(win, w, st) && Inv(win, w) && id in w.tasks.rows
    requires id in Do(win, w, st).tasks.rows && Verifies(Do(win, w, st).tasks.rows[id].taskType)
    requires Do(win, w, st).tasks.rows[id].Unfinished()
    ensures Named(Do(win, w, st), id)
  {
    OldKind(win, w, st, id);
    var v := InvGives(win, w, id, st.x.device);
    hide Inv, Legal, Do, Projected, TransitionOf, Begins, Serves, KeyFor, RowsOk, Local.Ended, StateOk, WindowOf;
    hide Verifies;
    var w', prev := Do(win, w, st), PrevOf(w, st);
    LifeAfter(win, w, st);
    RowThroughSample(win, w, st, id, v);
    ServesItsKey(win, w'.tasks.rows[id], v);
    OtherStatesStay(win, w, st, v.device);
    OtherStatesStay(win, w, st, st.x.device);
    LeftGrows(win, w, st);
    if Begins(win, w, st).None? { PendingIsNext(win, w, st); }
  }

  // What the invariant says of one verification row and one device.
  lemma InvGives(win: Windows, w: World, id: Id, d: string) returns (v: Window)
    requires Inv(win, w) && id in w.tasks.rows && Verifies(w.tasks.rows[id].taskType)
    ensures v in w.begun && Serves(win, w.tasks.rows[id], v) && w.tasks.rows[id].entity == v.device
    ensures w.tasks.rows[id].Unfinished() ==> Named(w, id)
    ensures StateOk(Local.StateOf(w.states, d), d, w.tasks)
  {
    hide Verifies, Named, KeyFor, EndOf, UniqueKeys, StateOk, HasRow;
    assert HasWindow(w.tasks.rows[id], w.begun);
    v :| v in w.begun && w.tasks.rows[id].key == Some(KeyFor(v));
  }

  lemma LeftGrows(win: Windows, w: World, st: Step)
    requires st.Handle?
    ensures w.left <= Do(win, w, st).left
    ensures var ended := Local.Ended(PrevOf(w, st), TransitionOf(win, w, st));
            ended.Some? && ended == st.x.schedulerTask ==> ended.value in Do(win, w, st).left
  {
    hide Projected, Local.TasksArmed, TransitionOf, Begins, Local.Ended;
  }

  lemma OldKind(win: Windows, w: World, st: Step, id: Id)
    requires st.Handle? && Legal(win, w, st) && id in w.tasks.rows && id in Do(win, w, st).tasks.rows
    requires Verifies(Do(win, w, st).tasks.rows[id].taskType)
    ensures Verifies(w.tasks.rows[id].taskType)
  {
    OldRowsStay(win, w, st, id);
    ArmingIsWork(win, w, st);
    var ended := Local.Ended(PrevOf(w, st), TransitionOf(win, w, st));
    KindSurvives(w.tasks, ended, st.x, id);
    hide Legal, Projected, Do, Keeps, Runs.Next, Runs.Enabled, TransitionOf, Local.Ended, Local.Skipped, Verifies;
    var s, u := Projected(win, w, st), Do(win, w, st).tasks;
    if u != s {
      var op :| Runs.Enabled(s, op) && Keeps(s, op) && u == Runs.Next(s, op);
      Runs.RowFate(s, op, id);
    }
  }

  lemma KindSurvives(s: Store, id: Option<Id>, x: Local.Observation, i: Id)
    requires i in s.rows
    ensures i in Local.Skipped(s, id, x).rows && Local.Skipped(s, id, x).rows[i].taskType == s.rows[i].taskType
  {
  }

  // A new row of these kinds is the opened window's, and its state names it.
  lemma NewRowIsPending(win: Windows, w: World, st: Step, id: Id)
    requires st.Handle? && win.Valid() && Legal(win, w, st) && Inv(win, w)
    requires id !in w.tasks.rows && id in Do(win, w, st).tasks.rows
    requires Verifies(Do(win, w, st).tasks.rows[id].taskType)
    ensures Named(Do(win, w, st), id)
  {
    NewVerifierOpens(win, w, st, id);
    var v := Begins(win, w, st).value;
    assert StateOk(PrevOf(w, st), st.x.device, w.tasks) && UniqueKeys(w.tasks) && RowsOk(win, w.tasks, w.begun);
    assert st.newTask !in w.tasks.rows;
    hide Inv, Legal, Do, Projected, TransitionOf, Begins, KeyFor, EndOf, RowsOk, UniqueKeys, StateOk, WindowOf;
    hide Verifies;
    LifeAfter(win, w, st);
    PendingOwns(win, w, st, v);
    ProjectionKeepsRows(win, w, st);
    NewRowHasKey(win, w, st, v);
    SoleOwner(Projected(win, w, st), st.pending.value, id);
    HandleKeepsRows(win, w, st);
    NamedServes(win, Do(win, w, st).tasks, Do(win, w, st).begun, id, v);
    ServesItsKey(win, Do(win, w, st).tasks.rows[id], v);
    WindowDevice(win, w, st, v);
    OtherStatesStay(win, w, st, st.x.device);
  }

  lemma WindowDevice(win: Windows, w: World, st: Step, v: Window)
    requires st.Handle? && Begins(win, w, st) == Some(v)
    ensures v.device == st.x.device
  {
    hide TransitionOf;
  }

  lemma SoleOwner(s: Store, i: Id, j: Id)
    requires UniqueKeys(s) && i in s.rows && j in s.rows && s.rows[i].key.Some? && s.rows[i].key == s.rows[j].key
    ensures i == j
  {
  }

  lemma NewVerifierOpens(win: Windows, w: World, st: Step, id: Id)
    requires st.Handle? && Legal(win, w, st) && id !in w.tasks.rows && id in Do(win, w, st).tasks.rows
    requires Verifies(Do(win, w, st).tasks.rows[id].taskType)
    ensures id == st.newTask && id in Projected(win, w, st).rows && Begins(win, w, st).Some?
  {
    var s, u := Projected(win, w, st), Do(win, w, st).tasks;
    ArmingIsWork(win, w, st);
    hide Legal, Do, Projected, TransitionOf, Begins, Keeps, Runs.Next, Runs.Enabled, Verifies;
    if u != s {
      var op :| Runs.Enabled(s, op) && Keeps(s, op) && u == Runs.Next(s, op);
      OldVerifier(s, op, id);
    }
    NewRowOpens(win, w, st, id);
  }

  lemma NewRowOpens(win: Windows, w: World, st: Step, id: Id)
    requires st.Handle? && id !in w.tasks.rows && id in Projected(win, w, st).rows
    ensures id == st.newTask && Begins(win, w, st).Some?
  {
    BeginsOpens(win, w, st);
    Local.SkippedKeepsKeys(w.tasks, Local.Ended(PrevOf(w, st), TransitionOf(win, w, st)), st.x);
    hide TransitionOf, Begins, Local.Opened, Local.Skipped;
  }

  lemma NewRowHasKey(win: Windows, w: World, st: Step, v: Window)
    requires st.Handle? && Begins(win, w, st) == Some(v)
    requires st.newTask !in w.tasks.rows && st.newTask in Projected(win, w, st).rows
    ensures Projected(win, w, st).rows[st.newTask].key == Some(KeyFor(v))
    ensures Projected(win, w, st).rows[st.newTask].status == Pending
    ensures Projected(win, w, st).rows[st.newTask].due == EndOf(win, v)
  {
    BeginsOpens(win, w, st);
    Local.SkippedKeepsKeys(w.tasks, Local.Ended(PrevOf(w, st), TransitionOf(win, w, st)), st.x);
    hide TransitionOf, Begins, Local.Opened, Local.Skipped, KeyFor, EndOf;
  }

  lemma HandleKeepsInv(win: Windows, w: World, st: Step)
    requires st.Handle? && win.Valid() && Legal(win, w, st) && Inv(win, w)
    ensures Inv(win, Do(win, w, st))
  {
    HandleKeepsRows(win, w, st);
    var w' := Do(win, w, st);
    forall d ensures StateOk(Local.StateOf(w'.states, d), d, w'.tasks) { HandleKeepsStates(win, w, st, d); }
    forall id | id in w'.tasks.rows && Verifies(w'.tasks.rows[id].taskType) && w'.tasks.rows[id].Unfinished()
      ensures Named(w', id)
    {
      HandleKeepsNames(win, w, st, id);
    }
    hide Do, Legal, RowsOk, UniqueKeys, StateOk, Named, Verifies;
  }

  lemma WorkKeepsInv(win: Windows, w: World, op: Runs.Op)
    requires Legal(win, w, Work(op)) && Inv(win, w)
    ensures Inv(win, Do(win, w, Work(op)))
  {
    OpKeepsRows(win, w.tasks, op, w.begun);
    var w' := Do(win, w, Work(op));
    assert w' == w.(tasks := Runs.Next(w.tasks, op));
    hide Do, Runs.Next, Runs.Enabled, Keeps, UniqueKeys, KeyFor, Verifies, HasRow;
    forall d ensures StateOk(Local.StateOf(w'.states, d), d, w'.tasks) {
      var s := Local.StateOf(w.states, d);
      assert StateOk(s, d, w.tasks);
      if WindowOf(d, s).Some? {
        NamedServes(win, w.tasks, w.begun, s.taskId.value, WindowOf(d, s).value);
        ServesOn(win, w.tasks, op, s.taskId.value, WindowOf(d, s).value);
        ServesItsKey(win, w'.tasks.rows[s.taskId.value], WindowOf(d, s).value);
      }
    }
    forall id | id in w'.tasks.rows && Verifies(w'.tasks.rows[id].taskType) && w'.tasks.rows[id].Unfinished()
      ensures Named(w', id)
    {
      OldVerifier(w.tasks, op, id);
      var v := InvGives(win, w, id, "");
      ServesOn(win, w.tasks, op, id, v);
      ServesItsKey(win, w'.tasks.rows[id], v);
      ServesItsKey(win, w.tasks.rows[id], v);
    }
  }

  // ------------------------------------------------------- histories

  const EMPTY := World(map[], Store(map[], Unknown), {}, {})

  function After(win: Windows, steps: seq<Step>): World {
    if steps == [] then EMPTY else Do(win, After(win, steps[..|steps| - 1]), steps[|steps| - 1])
  }

  ghost predicate LegalAll(win: Windows, steps: seq<Step>) {
    forall i :: 0 <= i < |steps| ==> Legal(win, After(win, steps[..i]), steps[i])
  }

  lemma LegalPrefix(win: Windows, steps: seq<Step>, n: nat)
    requires LegalAll(win, steps) && n <= |steps|
    ensures LegalAll(win, steps[..n])
    ensures n > 0 ==> steps[..n][..n - 1] == steps[..n - 1] && Legal(win, After(win, steps[..n - 1]), steps[n - 1])
  {
    assert forall i :: 0 <= i < n ==> steps[..n][..i] == steps[..i] && steps[..n][i] == steps[i];
  }

  lemma {:induction false} HistoryInv(win: Windows, steps: seq<Step>)
    requires win.Valid() && LegalAll(win, steps)
    ensures Inv(win, After(win, steps))
  {
    hide Inv, Legal, Do;
    if steps == [] { EmptyInv(win); }
    else {
      var n := |steps|;
      LegalPrefix(win, steps, n - 1);
      HistoryInv(win, steps[..n - 1]);
      LegalPrefix(win, steps, n);
      assert steps[..n] == steps;
      StepKeepsInv(win, After(win, steps[..n - 1]), steps[n - 1]);
    }
  }

  lemma StepKeepsInv(win: Windows, w: World, st: Step)
    requires win.Valid() && Legal(win, w, st) && Inv(win, w)
    ensures Inv(win, Do(win, w, st))
  {
    hide Inv, Legal, Do;
    if st.Handle? { HandleKeepsInv(win, w, st); }
    else { WorkKeepsInv(win, w, st.op); }
  }

  lemma EmptyInv(win: Windows)
    ensures Inv(win, EMPTY)
  {
  }

  /** After every history a device verifies exactly while its state names a
      VERIFY_ALARM task, recovers exactly while it names a VERIFY_RECOVERY task, and
      the task named is the one of that very window, never due before its end. */
  lemma StatesNameTheirTasks(win: Windows, steps: seq<Step>, d: string)
    requires win.Valid() && LegalAll(win, steps)
    ensures var w := After(win, steps);
            var s := Local.StateOf(w.states, d);
            && (s.taskId.Some? <==> s.life in {Verifying, Recovering})
            && (s.taskId.Some? ==>
                  && s.taskId.value in w.tasks.rows
                  && var t := w.tasks.rows[s.taskId.value];
                  && t.entity == d && t.key == Some(KeyFor(WindowOf(d, s).value))
                  && t.taskType == (if s.life == Verifying then "VERIFY_ALARM" else "VERIFY_RECOVERY")
                  && EndOf(win, WindowOf(d, s).value) <= t.due)
  {
    HistoryInv(win, steps);
    var w := After(win, steps);
    var s := Local.StateOf(w.states, d);
    assert StateOk(s, d, w.tasks);
    if s.taskId.Some? {
      NamedServes(win, w.tasks, w.begun, s.taskId.value, WindowOf(d, s).value);
      ServesItsKey(win, w.tasks.rows[s.taskId.value], WindowOf(d, s).value);
    }
    hide After, Inv, KeyFor, RowsOk, Serves;
  }

  /** After every history no verification task is unfinished but the one its device's
      state names, and those a scheduler was running when they ended their window. */
  lemma NoOtherTaskWaits(win: Windows, steps: seq<Step>, id: Id)
    requires win.Valid() && LegalAll(win, steps) && id in After(win, steps).tasks.rows
    requires Verifies(After(win, steps).tasks.rows[id].taskType) && After(win, steps).tasks.rows[id].Unfinished()
    ensures Named(After(win, steps), id)
  {
    HistoryInv(win, steps);
    hide After;
  }

  /** After every history a verification task can be claimed, first or again, only at
      or after the end of the window whose key it has. */
  lemma NoWindowIsCutShort(win: Windows, steps: seq<Step>, id: Id, now: int)
    requires win.Valid() && LegalAll(win, steps)
    ensures Candidate(After(win, steps).tasks, id, now, {}) && Verifies(After(win, steps).tasks.rows[id].taskType) ==>
              exists v :: v in After(win, steps).begun && ClaimsAfterEnd(win, After(win, steps).tasks.rows[id], v, now)
  {
    HistoryInv(win, steps);
    var w := After(win, steps);
    if Candidate(w.tasks, id, now, {}) && Verifies(w.tasks.rows[id].taskType) {
      var v := InvGives(win, w, id, "");
      hide After, Inv, KeyFor, EndOf, Verifies;
      assert ClaimsAfterEnd(win, w.tasks.rows[id], v, now);
    }
  }

  predicate ClaimsAfterEnd(win: Windows, t: Task, v: Window, now: int) {
    t.key == Some(KeyFor(v)) && t.entity == v.device && EndOf(win, v) <= now
  }

  // Step i of the history opened window v.
  ghost predicate BeganAt(win: Windows, steps: seq<Step>, i: nat, v: Window)
    requires i < |steps|
  {
    steps[i].Handle? && Begins(win, After(win, steps[..i]), steps[i]) == Some(v)
  }

  lemma {:induction false} BegunIsHistory(win: Windows, steps: seq<Step>, v: Window)
    ensures v in After(win, steps).begun <==> exists i: nat :: i < |steps| && BeganAt(win, steps, i, v)
  {
    hide Do, Begins, LegalAll;
    if steps != [] {
      var n := |steps| - 1;
      BegunIsHistory(win, steps[..n], v);
      assert forall i: nat :: i < n ==> steps[..n][..i] == steps[..i] && steps[..n][i] == steps[i];
      assert forall i: nat :: i < n ==> (BeganAt(win, steps[..n], i, v) <==> BeganAt(win, steps, i, v));
      LastBegins(win, After(win, steps[..n]), steps[n], v);
      var w, st := After(win, steps[..n]), steps[n];
      assert BeganAt(win, steps, n, v) <==> st.Handle? && Begins(win, w, st) == Some(v);
    }
  }

  lemma LastBegins(win: Windows, w: World, st: Step, v: Window)
    ensures v in Do(win, w, st).begun <==> v in w.begun || (st.Handle? && Begins(win, w, st) == Some(v))
  {
    hide Begins, Projected, TransitionOf, Local.TasksArmed, Runs.Next;
  }

  /** The exact condition on key reuse.  The task of a window that opens is a new one,
      waiting until the window's end, if and only if no earlier step of the history
      opened a window of the same device, kind and instant; otherwise it is that
      earlier window's task as it stands, finished or not. */
  lemma WindowTaskIsNewExactly(win: Windows, steps: seq<Step>, st: Step, v: Window)
    requires win.Valid() && LegalAll(win, steps) && st.Handle? && Legal(win, After(win, steps), st)
    requires Begins(win, After(win, steps), st) == Some(v)
    ensures var s := Projected(win, After(win, steps), st);
            && st.pending.Some? && st.pending.value in s.rows && s.rows[st.pending.value].key == Some(KeyFor(v))
            && (st.pending == Some(st.newTask) <==> !exists i: nat :: i < |steps| && BeganAt(win, steps, i, v))
            && (st.pending == Some(st.newTask) ==>
                  s.rows[st.newTask].status == Pending && s.rows[st.newTask].due == EndOf(win, v))
            && (st.pending != Some(st.newTask) ==> s.rows.Keys == After(win, steps).tasks.rows.Keys)
  {
    HistoryInv(win, steps);
    BegunIsHistory(win, steps, v);
    var w := After(win, steps);
    hide After;
    PendingOwns(win, w, st, v);
    ProjectionKeepsRows(win, w, st);
    WindowTask(win, w, st, v);
  }

  lemma WindowTask(win: Windows, w: World, st: Step, v: Window)
    requires st.Handle? && Legal(win, w, st) && Begins(win, w, st) == Some(v)
    requires UniqueKeys(w.tasks) && RowsOk(win, w.tasks, w.begun)
    ensures var s := Projected(win, w, st);
            && (st.pending == Some(st.newTask) <==> v !in w.begun)
            && (v !in w.begun ==> st.newTask in s.rows && s.rows[st.newTask].status == Pending
                                  && s.rows[st.newTask].due == EndOf(win, v))
            && (v in w.begun ==> s.rows.Keys == w.tasks.rows.Keys)
  {
    BeginsOpens(win, w, st);
    PendingOwns(win, w, st, v);
    var prev, tr := PrevOf(w, st), TransitionOf(win, w, st);
    var s1 := Local.Skipped(w.tasks, Local.Ended(prev, tr), st.x);
    SkippingKeepsRows(win, w.tasks, Local.Ended(prev, tr), st.x, w.begun);
    Local.SkippedKeepsKeys(w.tasks, Local.Ended(prev, tr), st.x);
    var req := Local.VerifyRequest(KindOf(v), v.device, KeyFor(v), EndOf(win, v), st.x.now);
    CreateKeepsRows(win, s1, st.newTask, req, v, w.begun);
    assert Projected(win, w, st) == Create(s1, st.newTask, req, true);
    assert st.newTask !in s1.rows;
    hide RowsOk, UniqueKeys, TransitionOf, Legal, Begins, Local.Opened, Local.Skipped, Local.Ended, KeyFor, EndOf;
    hide Projected;
    if v !in w.begun { assert Owns(Create(s1, st.newTask, req, true), st.pending.value, req.key); }
  }
}
