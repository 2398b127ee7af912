/**
 One handled sample: the alarm machine's actions projected onto the local
 tables in one atomic unit, a safety task armed for every external event write,
 and the write itself afterwards.
 */
module MonitorProjection {
  import opened Base
  import opened AlarmLifecycle
  import EventStore
  import TaskStore
  import TaskRuns

  type EventId = EventStore.EventId
  type Table = EventStore.Table
  type TaskId = TaskStore.Id

  // The three conditions under which external event writes are armed.
  datatype Gates = Gates(modeActive: bool, standardsReady: bool, deviceInScope: bool) {
    predicate Enabled() { modeActive && standardsReady && deviceInScope }
  }

  // The mode, epoch and time an action's context carries.
  datatype Origin = Origin(mode: Option<TaskStore.Mode>, epoch: Option<TaskStore.Epoch>, createdAt: Option<int>)

  // The executor's further conditions: `current` and `cutover` are what the
  // runtime context says at that moment.
  datatype Clearance = Clearance(
    deviceMatches: bool, origin: Option<Origin>, current: Option<TaskStore.Epoch>, cutover: Option<int>,
    featureEnabled: bool, hasHandler: bool)

  // An action that carries its origin - a sample's as much as a task's - must be of
  // the current epoch.
  predicate EpochAdmits(k: Clearance) {
    k.origin.Some? ==>
      var o := k.origin.value;
      && o.mode == Some(TaskStore.Active) && k.current.Some? && o.epoch == k.current
      && k.cutover.Some? && o.createdAt.Some? && k.cutover.value <= o.createdAt.value
  }

  // The chain of refusals in front of an external handler.
  function ReachesHandler(g: Gates, k: Clearance): (reached: bool)
    ensures reached <==>
              && g.modeActive && g.standardsReady && g.deviceInScope && k.deviceMatches
              && (k.origin.Some? ==>
                    && k.origin.value.mode == Some(TaskStore.Active) && k.origin.value.epoch.Some?
                    && k.origin.value.epoch == k.current && k.cutover.Some? && k.origin.value.createdAt.Some?
                    && k.origin.value.createdAt.value >= k.cutover.value)
              && k.featureEnabled && k.hasHandler
  {
    if !g.modeActive then false
    else if !g.standardsReady then false
    else if !g.deviceInScope then false
    else if !k.deviceMatches then false
    else if !EpochAdmits(k) then false
    else k.featureEnabled && k.hasHandler
  }

  /** The two epoch gates agree: in an Active context the executor admits an action of
      a task exactly when the claim-time quarantine finds that task not outdated. */
  lemma GateAgreesWithQuarantine(k: Clearance, t: TaskStore.Task, c: TaskStore.Context, now: int)
    requires c.Installed? && c.mode == TaskStore.Active && c.epoch.Some? && c.cutover.Some?
    requires k.origin == Some(Origin(t.mode, t.epoch, Some(t.createdAt)))
    requires k.current == c.epoch && k.cutover == c.cutover
    ensures EpochAdmits(k) <==> !TaskStore.Outdated(t, c, now)
  {
  }

  datatype Observation = Observation(device: string, reading: Reading, now: int, gates: Gates, episode: Episode,
                           schedulerTask: Option<TaskId>)

  predicate IsEventAction(a: Action) { a.CreateAlarmEvent? || a.UpdateAlarmEvent? || a.MarkAlarmRecovered? }

  predicate HasEventAction(actions: seq<Action>) { exists a :: a in actions && IsEventAction(a) }

  function StateOf(states: map<string, AlarmState>, device: string): AlarmState {
    if device in states then states[device] else RESTING
  }

  // What the actions of one transition do to the event table.
  function EventsAfter(
    t: Table, prev: AlarmState, x: Observation, tr: Transition, newId: EventId, reused: Option<EventId>): Table
  {
    if CreateAlarmEvent in tr.actions then
      var t1 := EventStore.CreateActive(t, reused, newId, x.device, KeyOf(x, tr), x.now);
      if x.gates.Enabled()
      then EventStore.OrSame(EventStore.MarkBindingPending(t1, reused.GetOr(newId), x.now), t1) else t1
    else if (exists a :: a in tr.actions && a.MarkAlarmRecovered?) && prev.alarmId.Some? then
      var e := prev.alarmId.value;
      var patch := EventStore.Patch(false, Some(true), Some(x.now), None);
      var t1 := if x.gates.Enabled() then EventStore.OrSame(EventStore.PatchProjection(t, e, patch), t) else t;
      EventStore.OrSame(EventStore.Close(t1, e, x.now), t1)
    else t
  }

  function KeyOf(x: Observation, tr: Transition): EventStore.EventKey {
    EventStore.EventKey(x.device, tr.next.violationAt.GetOr(x.now))
  }

  // The alarm id saved with the new state.
  function AlarmIdAfter(tr: Transition, newId: EventId, reused: Option<EventId>): Option<EventId> {
    if CreateAlarmEvent in tr.actions then Some(reused.GetOr(newId)) else tr.next.alarmId
  }

  // The state saved after a transition.
  function Saved(
    tr: Transition, newId: EventId, reused: Option<EventId>, taskId: Option<TaskId>, episode: Episode): AlarmState
  {
    tr.next.(alarmId := AlarmIdAfter(tr, newId, reused), taskId := taskId, episode := episode)
  }

  function IntText(n: int): string { if n < 0 then "-" + TaskStore.HexText(-n) else TaskStore.HexText(n) }

  function IdText(id: Option<nat>): string { if id.Some? then TaskStore.HexText(id.value) else "None" }

  function ReconcileRequest(x: Observation, event: Option<EventId>): TaskStore.Request {
    TaskStore.Request("RECONCILE_ALARM_EVENT", x.device, x.now, TaskStore.Payload(event, 0, 0, 0),
                      "RECONCILE_ALARM_EVENT:" + IdText(event), x.now)
  }

  // ------------------------------------------------------- verification windows

  function AlarmText(alarm: Option<nat>): string { if alarm.Some? then TaskStore.HexText(alarm.value) else "unknown" }

  function AlarmKey(device: string, start: int): string { "VERIFY_ALARM:" + device + ":" + IntText(start) }

  function RecoveryKey(device: string, alarm: Option<nat>, start: int): string {
    "VERIFY_RECOVERY:" + device + ":" + AlarmText(alarm) + ":" + IntText(start)
  }

  function VerifyRequest(kind: string, device: string, key: string, due: int, now: int): TaskStore.Request {
    TaskStore.Request(kind, device, due, TaskStore.Payload(None, 0, 0, 0), key, now)
  }

  // The task of a verification or recovery window that the transition opens, due at its end.
  function Opened(win: Windows, prev: AlarmState, tr: Transition, x: Observation): Option<TaskStore.Request> {
    if prev.life != Verifying && tr.next.life == Verifying then
      var start := tr.next.violationAt.GetOr(x.now);
      Some(VerifyRequest("VERIFY_ALARM", x.device, AlarmKey(x.device, start), start + win.verifyAfter, x.now))
    else if prev.life != Recovering && tr.next.life == Recovering && win.recoveryAfter > 0 then
      var start := tr.next.recoveryAt.GetOr(x.now);
      Some(VerifyRequest("VERIFY_RECOVERY", x.device, RecoveryKey(x.device, tr.next.alarmId, start),
                         start + win.recoveryAfter, x.now))
    else None
  }

  // The task of a window that the transition ends.
  function Ended(prev: AlarmState, tr: Transition): Option<TaskId> {
    if prev.life in {Verifying, Recovering} && tr.next.life != prev.life then prev.taskId else None
  }

  // Cancelled, unless the scheduler is running it or it is finished already.
  function Skipped(s: TaskStore.Store, id: Option<TaskId>, x: Observation): TaskStore.Store {
    if id.None? || x.schedulerTask == id then s else TaskRuns.OrSame(TaskStore.Cancel(s, id.value, x.now), s)
  }

  // The tasks once the transition's windows are projected.
  function TasksAfter(
    win: Windows, s: TaskStore.Store, prev: AlarmState, tr: Transition, x: Observation, newTask: TaskId)
    : TaskStore.Store
  {
    var s1 := Skipped(s, Ended(prev, tr), x);
    match Opened(win, prev, tr, x)
    case None => s1
    case Some(req) => TaskStore.Create(s1, newTask, req, true)
  }

  // The pending task saved with the new state: the owner of an opened window's key.
  predicate IsPending(
    win: Windows, s: TaskStore.Store, prev: AlarmState, tr: Transition, x: Observation, pending: Option<TaskId>)
  {
    match Opened(win, prev, tr, x)
    case None => pending == tr.next.taskId
    case Some(req) => pending.Some? && TaskStore.Owns(s, pending.value, req.key)
  }

  // The tasks once the reconciliation task is armed as well.
  function TasksArmed(
    s: TaskStore.Store, x: Observation, actions: seq<Action>, event: Option<EventId>, newArm: TaskId,
    w: Option<TaskId>): Result<TaskStore.Store, TaskStore.Error>
  {
    if x.gates.Enabled() && HasEventAction(actions)
    then TaskStore.CreateUnfinished(s, newArm, ReconcileRequest(x, event), w) else Ok(s)
  }

  // An unfinished reconciliation task for the event is in the table.
  predicate Armed(s: TaskStore.Store, id: TaskId, x: Observation, event: Option<EventId>) {
    id in s.rows && TaskStore.SameWork(s.rows[id], ReconcileRequest(x, event))
  }

  // The actions of a transition that leaves its recovery window touch no task.
  predicate EndsFirst(prev: AlarmState, tr: Transition) { prev.life == Recovering && tr.next.life != Recovering }

  predicate TaskAction(a: Action) {
    a.CreateVerifyTask? || a.StartRecovery? || a.CancelVerifyTask? || a.CompleteVerifyTask?
  }

  // Which windows a transition opens and ends, read off its first action.
  lemma TaskActionsComeFirst(win: Windows, prev: AlarmState, x: Observation, tr: Transition)
    requires tr == Apply(win, prev, x.reading, x.now)
    ensures forall i :: 0 < i < |tr.actions| ==> !TaskAction(tr.actions[i])
    ensures EndsFirst(prev, tr) && tr.actions != [] ==> !TaskAction(tr.actions[0])
  {
  }

  // The facts about single rows behind the projected table.
  lemma WindowsAreProjected(
    win: Windows, s: TaskStore.Store, prev: AlarmState, tr: Transition, x: Observation, newTask: TaskId)
    requires newTask !in s.rows
    ensures var ended, u := Ended(prev, tr), TasksAfter(win, s, prev, tr, x, newTask);
            ended.Some? && ended != x.schedulerTask && ended.value in s.rows ==>
              ended.value in u.rows && !u.rows[ended.value].Unfinished()
    ensures var begun, u := Opened(win, prev, tr, x), TasksAfter(win, s, prev, tr, x, newTask);
            begun.Some? && !TaskStore.KeyTaken(s, begun.value.key) ==>
              && newTask in u.rows && u.rows[newTask].status == TaskStore.Pending
              && u.rows[newTask].due == begun.value.due
              && forall o :: TaskStore.Owns(u, o, begun.value.key) ==> o == newTask
  {
    hide Opened, IntText;
    SkippedKeepsKeys(s, Ended(prev, tr), x);
  }

  lemma SkippedKeepsKeys(s: TaskStore.Store, id: Option<TaskId>, x: Observation)
    ensures Skipped(s, id, x).rows.Keys == s.rows.Keys && Skipped(s, id, x).ctx == s.ctx
    ensures forall o :: o in s.rows ==> Skipped(s, id, x).rows[o].key == s.rows[o].key
    ensures forall o :: o in s.rows && Some(o) != id ==> Skipped(s, id, x).rows[o] == s.rows[o]
    ensures id.Some? && id != x.schedulerTask && id.value in s.rows ==> !Skipped(s, id, x).rows[id.value].Unfinished()
  {
  }

  lemma ProjectionAddsOne(
    win: Windows, s: TaskStore.Store, prev: AlarmState, tr: Transition, x: Observation, newTask: TaskId)
    ensures TasksAfter(win, s, prev, tr, x, newTask).rows.Keys <= s.rows.Keys + {newTask}
    ensures s.rows.Keys <= TasksAfter(win, s, prev, tr, x, newTask).rows.Keys
    ensures TasksAfter(win, s, prev, tr, x, newTask).ctx == s.ctx
  {
    hide Opened;
    SkippedKeepsKeys(s, Ended(prev, tr), x);
  }

  lemma RefusedByClash(s: TaskStore.Store, newId: TaskId, req: TaskStore.Request, w: Option<TaskId>)
    requires req.taskType == "RECONCILE_ALARM_EVENT" && req.entity != "" && req.key != ""
    requires TaskStore.CreateUnfinished(s, newId, req, w).Err?
    ensures TaskStore.ArchiveClash(s, req.key, None)
  {
  }

  lemma AcceptedIsUnfinished(s: TaskStore.Store, newId: TaskId, req: TaskStore.Request, w: Option<TaskId>)
    requires req.taskType == "RECONCILE_ALARM_EVENT" && TaskStore.IsWinner(s, req, w)
    requires TaskStore.CreateUnfinished(s, newId, req, w).Ok?
    ensures var u := TaskStore.CreateUnfinished(s, newId, req, w).value;
            w.GetOr(newId) in u.rows && TaskStore.SameWork(u.rows[w.GetOr(newId)], req)
  {
  }

  /** What a transition does to event o, by columns.  A creation opens a new event or
      takes one up, asking for its remote row only while the gates are open and it has
      none; a recovery closes the alarm's event, asking for the remote recovery only
      while the gates are open; nothing else changes an event. */
  lemma EventsInColumns(
    win: Windows, t: Table, prev: AlarmState, x: Observation, tr: Transition, newId: EventId, reused: Option<EventId>,
    o: EventId)
    requires tr == Apply(win, prev, x.reading, x.now) && newId !in t
    requires reused.Some? ==> reused.value in t
    requires o in EventsAfter(t, prev, x, tr, newId, reused)
    ensures var u := EventsAfter(t, prev, x, tr, newId, reused)[o];
            var created := CreateAlarmEvent in tr.actions;
            var recovered := MarkAlarmRecovered(prev.alarmId) in tr.actions && prev.alarmId == Some(o);
            var open := x.gates.modeActive && x.gates.standardsReady && x.gates.deviceInScope;
            && (o !in t ==>
                  && created && reused.None? && o == newId && u.status == EventStore.Open && u.device == x.device
                  && u.openedAt == x.now && u.key == EventStore.EventKey(x.device, tr.next.violationAt.GetOr(x.now))
                  && u.record.None? && !u.attempted && u.notes.bindingPending == open
                  && (open ==> u.notes.requestedAt == Some(x.now)))
            && (o in t && created && reused == Some(o) && open && t[o].record.None? ==>
                  u == t[o].(notes := u.notes) && u.notes.bindingPending)
            && (o in t && recovered ==>
                  && u.status == EventStore.Closed
                  && u.closedAt == (if t[o].status == EventStore.Closed then t[o].closedAt else Some(x.now))
                  && u == t[o].(status := u.status, closedAt := u.closedAt, notes := u.notes)
                  && (open ==> u.notes.recoveryPending == Some(true) && u.notes.recoveredAt == Some(x.now))
                  && (!open ==> u.notes == t[o].notes))
            && (o in t && !recovered && !(created && reused == Some(o) && open && t[o].record.None?) ==> u == t[o])
  {
  }

  /** The window a transition opens: a verification window of a first violation or a
      recovery window of a first normal sample, its task due a window's length later. */
  lemma OpenedInColumns(win: Windows, prev: AlarmState, x: Observation, tr: Transition)
    requires tr == Apply(win, prev, x.reading, x.now)
    ensures var r, verify := Opened(win, prev, tr, x), prev.life == AtRest && x.reading == Violation;
            var recover := prev.life == InAlarm && x.reading == Normal && win.recoveryAfter > 0;
            && (r.Some? <==> verify || recover)
            && (r.Some? ==> r.value.entity == x.device && r.value.createdAt == x.now)
            && (verify ==> r.value.taskType == "VERIFY_ALARM" && r.value.due == x.now + win.verifyAfter)
            && (recover ==> r.value.taskType == "VERIFY_RECOVERY" && r.value.due == x.now + win.recoveryAfter)
    ensures Ended(prev, tr).Some? ==>
              && Ended(prev, tr) == prev.taskId
              && (prev.life == Verifying ==> x.reading == Normal || CreateAlarmEvent in tr.actions)
              && (prev.life == Recovering ==> x.reading == Violation || MarkAlarmRecovered(prev.alarmId) in tr.actions)
  {
    hide IntText, AlarmText;
  }

  // The safety task of an event write: one that waits or runs already goes on as it
  // was; otherwise a new one for this event is due at once.
  ghost predicate SafetyTaskStands(s: TaskStore.Store, u: TaskStore.Store, id: TaskId, x: Observation,
                                   event: Option<EventId>)
  {
    && id in u.rows && u.rows[id].taskType == "RECONCILE_ALARM_EVENT"
    && (u.rows[id].status == TaskStore.Pending || u.rows[id].status == TaskStore.Running)
    && (id in s.rows ==>
          && (s.rows[id].status == TaskStore.Pending || s.rows[id].status == TaskStore.Running)
          && u.rows[id].due == s.rows[id].due && u.rows[id].payload == s.rows[id].payload)
    && (id !in s.rows ==>
          && u.rows[id].status == TaskStore.Pending && u.rows[id].due == x.now && u.rows[id].entity == x.device
          && u.rows[id].payload.localEvent == event
          && forall o :: o in s.rows ==>
               !(&& s.rows[o].taskType == "RECONCILE_ALARM_EVENT" && s.rows[o].Unfinished()
                 && s.rows[o].payload.localEvent == event && event.Some?))
  }

  lemma ArmedRowStands(
    s: TaskStore.Store, newId: TaskId, x: Observation, event: Option<EventId>, w: Option<TaskId>)
    requires newId !in s.rows && TaskStore.IsWinner(s, ReconcileRequest(x, event), w)
    requires TaskStore.CreateUnfinished(s, newId, ReconcileRequest(x, event), w).Ok?
    ensures SafetyTaskStands(s, TaskStore.CreateUnfinished(s, newId, ReconcileRequest(x, event), w).value,
                             w.GetOr(newId), x, event)
  {
    var req := ReconcileRequest(x, event);
    var u := TaskStore.CreateUnfinished(s, newId, req, w).value;
    hide TaskStore.CreateUnfinished, IdText;
    match w
    case None =>
      TaskStore.CreationInColumns(s, newId, req);
      assert forall o :: o in s.rows ==> !TaskStore.SameWork(s.rows[o], req);
    case Some(o) =>
      TaskStore.RetryKeepsItsBackoff(s, newId, req, w, o);
  }

  datatype CrashPoint = NoCrash | BeforeCommit | BeforeWrite | BeforeFinish

  class MonitorService {
    const windows: Windows
    const events: EventStore.EventRepository
    const tasks: TaskStore.TaskRepository
    var states: map<string, AlarmState>

    constructor (windows: Windows, events: EventStore.EventRepository, tasks: TaskStore.TaskRepository)
      ensures this.windows == windows && this.events == events && this.tasks == tasks && states == map[]
    {
      this.windows, this.events, this.tasks, states := windows, events, tasks, map[];
    }

    // A stale task may be gone or finished already; that is not an error.
    method FinishOrSkip(id: TaskId, x: Observation)
      requires TaskStore.UniqueKeys(tasks.store)
      modifies tasks
      ensures TaskStore.UniqueKeys(tasks.store) && tasks.store == Skipped(old(tasks.store), Some(id), x)
      ensures id in tasks.store.rows && x.schedulerTask != Some(id) ==> !tasks.store.rows[id].Unfinished()
    {
      if x.schedulerTask == Some(id) { return; }
      TaskRuns.KeysStayUnique(tasks.store, TaskRuns.Drop(id, x.now));
      var r := tasks.CancelTask(id, x.now);
    }

    // A verification task, created once per key.
    method Schedule(req: TaskStore.Request, newTask: TaskId) returns (id: TaskId)
      requires newTask !in tasks.store.rows && TaskStore.UniqueKeys(tasks.store)
      modifies tasks
      ensures TaskStore.UniqueKeys(tasks.store) && TaskStore.Owns(tasks.store, id, req.key)
      ensures tasks.store == TaskStore.Create(old(tasks.store), newTask, req, true)
      ensures !TaskStore.KeyTaken(old(tasks.store), req.key) ==>
                id == newTask && tasks.store.rows[id].status == TaskStore.Pending && tasks.store.rows[id].due == req.due
      ensures TaskStore.KeyTaken(old(tasks.store), req.key) ==> tasks.store == old(tasks.store)
    {
      TaskRuns.KeysStayUnique(tasks.store, TaskRuns.New(newTask, req, true));
      id := tasks.CreateOrGet(newTask, req, true);
    }

    /** The task side of the projection.  The task of a window that ends is finished,
        unless it is the scheduler's own; a window that opens gets the owner of its
        key, which is a new waiting task due at the window's end unless the key is
        taken; the answer is the pending task of the new state. */
    method ProjectTasks(prev: AlarmState, tr: Transition, x: Observation, newTask: TaskId)
      returns (pending: Option<TaskId>)
      requires newTask !in tasks.store.rows && TaskStore.UniqueKeys(tasks.store)
      requires tr == Apply(windows, prev, x.reading, x.now)
      modifies tasks
      ensures TaskStore.UniqueKeys(tasks.store)
      ensures tasks.store == TasksAfter(windows, old(tasks.store), prev, tr, x, newTask)
      ensures IsPending(windows, tasks.store, prev, tr, x, pending)
      ensures var ended := Ended(prev, tr);
              ended.Some? && ended != x.schedulerTask && ended.value in old(tasks.store).rows ==>
                ended.value in tasks.store.rows && !tasks.store.rows[ended.value].Unfinished()
      ensures var begun := Opened(windows, prev, tr, x);
              begun.Some? && !TaskStore.KeyTaken(old(tasks.store), begun.value.key) ==>
                && pending == Some(newTask) && tasks.store.rows[newTask].status == TaskStore.Pending
                && tasks.store.rows[newTask].due == begun.value.due
    {
      hide IntText, AlarmText, AlarmKey, RecoveryKey, TaskStore.Create, TaskStore.UniqueKeys;
      ghost var before := tasks.store;
      pending := tr.next.taskId;
      if prev.taskId.Some? && prev.life == Recovering && tr.next.life != Recovering
         && !exists a :: a in tr.actions && (a == CancelVerifyTask || a == CompleteVerifyTask) {
        FinishOrSkip(prev.taskId.value, x);
        pending := None;
      }
      var i := 0;
      while i < |tr.actions|
        invariant 0 <= i <= |tr.actions| && TaskStore.UniqueKeys(tasks.store)
        invariant EndsFirst(prev, tr) || i > 0 ==>
                    tasks.store == TasksAfter(windows, before, prev, tr, x, newTask)
                    && IsPending(windows, tasks.store, prev, tr, x, pending)
        invariant !EndsFirst(prev, tr) && i == 0 ==> tasks.store == before && pending == tr.next.taskId
      {
        TaskActionsComeFirst(windows, prev, x, tr);
        match tr.actions[i] {
          case CreateVerifyTask(runAt) =>
            var key := AlarmKey(x.device, tr.next.violationAt.GetOr(x.now));
            var id := Schedule(VerifyRequest("VERIFY_ALARM", x.device, key, runAt, x.now), newTask);
            pending := Some(id);
          case StartRecovery(_) =>
            if windows.recoveryAfter > 0 {
              var started := tr.next.recoveryAt.GetOr(x.now);
              var key := RecoveryKey(x.device, tr.next.alarmId, started);
              var due := started + windows.recoveryAfter;
              var id := Schedule(VerifyRequest("VERIFY_RECOVERY", x.device, key, due, x.now), newTask);
              pending := Some(id);
            }
          case CancelVerifyTask =>
            if prev.taskId.Some? { FinishOrSkip(prev.taskId.value, x); }
            pending := None;
          case CompleteVerifyTask =>
            if prev.taskId.Some? { FinishOrSkip(prev.taskId.value, x); }
            pending := None;
          case _ =>
        }
        i := i + 1;
      }
      WindowsAreProjected(windows, before, prev, tr, x, newTask);
    }

    // The event side of the projection.
    method ProjectEvents(prev: AlarmState, tr: Transition, x: Observation, newEvent: EventId)
      returns (alarmId: Option<EventId>, ok: bool, ghost reused: Option<EventId>)
      requires newEvent !in events.rows && tr == Apply(windows, prev, x.reading, x.now) && x.device != ""
      modifies events
      ensures CreateAlarmEvent in tr.actions ==>
                EventStore.IsReused(old(events.rows), x.device, KeyOf(x, tr), reused)
      ensures ok ==> events.rows == EventsAfter(old(events.rows), prev, x, tr, newEvent, reused)
      ensures ok ==> alarmId == AlarmIdAfter(tr, newEvent, reused)
      ensures !ok ==> prev.alarmId.Some? && prev.alarmId.value !in old(events.rows)
    {
      hide EventStore.CreateActive, EventStore.IsReused;
      alarmId, ok, reused := tr.next.alarmId, true, None;
      var i := 0;
      while i < |tr.actions|
        invariant 0 <= i <= |tr.actions|
        invariant ok
        invariant CreateAlarmEvent !in tr.actions[..i] ==> alarmId == tr.next.alarmId
        invariant CreateAlarmEvent in tr.actions[..i] ==> alarmId == Some(reused.GetOr(newEvent))
        invariant CreateAlarmEvent in tr.actions[..i] ==>
                    EventStore.IsReused(old(events.rows), x.device, KeyOf(x, tr), reused)
        invariant events.rows == if exists j :: 0 <= j < i && IsEventAction(tr.actions[j])
                                 then EventsAfter(old(events.rows), prev, x, tr, newEvent, reused) else old(events.rows)
      {
        match tr.actions[i] {
          case CreateAlarmEvent =>
            var r, u := events.CreateOrGetActive(newEvent, x.device, KeyOf(x, tr), x.now);
            reused := u;
            if x.gates.Enabled() { var p := events.MarkExternalBindingPending(r.value, x.now); }
            alarmId := Some(r.value);
          case MarkAlarmRecovered(id) =>
            if prev.alarmId.Some? {
              var e := prev.alarmId.value;
              if x.gates.Enabled() {
                var p := events.PatchExternalProjection(e, EventStore.Patch(false, Some(true), Some(x.now), None));
                if p.Err? { return alarmId, false, reused; }
              }
              var q := events.CloseEvent(e, x.now);
              if q.Err? { return alarmId, false, reused; }
            }
          case _ =>
        }
        i := i + 1;
      }
    }

    // One reconciliation task per event action, all for the same event.
    method ArmReconciliation(x: Observation, actions: seq<Action>, event: Option<EventId>, newTask: TaskId)
      returns (armed: Option<TaskId>, ok: bool, ghost w: Option<TaskId>)
      requires newTask !in tasks.store.rows && TaskStore.UniqueKeys(tasks.store) && x.device != ""
      modifies tasks
      ensures ok ==> (armed.Some? <==> x.gates.Enabled() && HasEventAction(actions))
      ensures ok && armed.Some? ==> Armed(tasks.store, armed.value, x, event)
      ensures ok && armed.Some? ==> SafetyTaskStands(old(tasks.store), tasks.store, armed.value, x, event)
      ensures ok ==> TaskStore.UniqueKeys(tasks.store)
      ensures ok ==> TasksArmed(old(tasks.store), x, actions, event, newTask, w) == Ok(tasks.store)
      ensures ok && armed.Some? ==> TaskStore.IsWinner(old(tasks.store), ReconcileRequest(x, event), w)
      ensures ok && armed.None? ==> tasks.store == old(tasks.store)
      ensures !ok ==> TaskStore.ArchiveClash(old(tasks.store), ReconcileRequest(x, event).key, None)
    {
      hide IdText, TaskStore.ArchiveClash, TaskStore.SameWork, TaskStore.CreateUnfinished, SafetyTaskStands;
      armed, ok, w := None, true, None;
      if !x.gates.Enabled() || !exists a :: a in actions && IsEventAction(a) { return; }
      var req := ReconcileRequest(x, event);
      ghost var before := tasks.store;
      var r;
      r, w := tasks.CreateOrGetUnfinished(newTask, req);
      if r.Err? {
        RefusedByClash(before, newTask, req, w);
        return None, false, w;
      }
      AcceptedIsUnfinished(before, newTask, req, w);
      ArmedRowStands(before, newTask, x, event, w);
      TaskRuns.KeysStayUnique(before, TaskRuns.NewUnfinished(newTask, req, w));
      armed := Some(r.value);
    }

    /** The atomic local unit of one sample.  It fails, and changes nothing, only when
        the alarm's event is gone or archiving a task key would hit one in use. */
    method LocalUnit(x: Observation, newEvent: EventId, newTask: TaskId, newArm: TaskId)
      returns (tr: Transition, armed: Option<TaskId>, event: Option<EventId>, ok: bool,
               ghost reused: Option<EventId>, ghost w: Option<TaskId>)
      requires newEvent !in events.rows && x.device != ""
      requires newTask !in tasks.store.rows && newArm !in tasks.store.rows && newTask != newArm
      requires TaskStore.UniqueKeys(tasks.store)
      modifies this, events, tasks
      ensures tr == Apply(windows, StateOf(old(states), x.device), x.reading, x.now)
      ensures !ok ==> states == old(states) && events.rows == old(events.rows) && tasks.store == old(tasks.store)
      ensures !ok ==> Obstructed(old(states), old(events.rows), old(tasks.store), x, newTask, event)
      ensures ok ==> TaskStore.UniqueKeys(tasks.store)
      ensures ok && CreateAlarmEvent in tr.actions ==>
                EventStore.IsReused(old(events.rows), x.device, KeyOf(x, tr), reused)
      ensures ok ==>
                events.rows == EventsAfter(old(events.rows), StateOf(old(states), x.device), x, tr, newEvent, reused)
      ensures ok ==> x.device in states && states == old(states)[x.device := states[x.device]]
      ensures ok ==> states[x.device] == Saved(tr, newEvent, reused, states[x.device].taskId, x.episode)
      ensures ok ==> event == if states[x.device].alarmId.Some? then states[x.device].alarmId
                              else StateOf(old(states), x.device).alarmId
      ensures ok ==> (armed.Some? <==> x.gates.Enabled() && HasEventAction(tr.actions))
      ensures ok && armed.Some? ==> Armed(tasks.store, armed.value, x, event)
      ensures ok && armed.Some? ==>
                SafetyTaskStands(Projected(old(states), old(tasks.store), x, newTask), tasks.store, armed.value, x,
                                 event)
      ensures ok ==> TasksCommitted(old(states), old(tasks.store), x, newTask, newArm, event, w) == Ok(tasks.store)
      ensures ok ==> PendingCommitted(old(states), old(tasks.store), x, newTask, states[x.device].taskId)
    {
      hide Apply, EventsAfter, IntText, IdText, TasksAfter, Opened, IsPending, TasksArmed, TaskStore.ArchiveClash,
        SafetyTaskStands;
      var prev := StateOf(states, x.device);
      tr := Apply(windows, prev, x.reading, x.now);
      armed, event, w := None, None, None;
      var events0, tasks0 := events.rows, tasks.store;
      var pending := ProjectTasks(prev, tr, x, newTask);
      ProjectionAddsOne(windows, tasks0, prev, tr, x, newTask);
      var alarmId;
      alarmId, ok, reused := ProjectEvents(prev, tr, x, newEvent);
      if ok {
        var next := tr.next.(alarmId := alarmId, taskId := pending, episode := x.episode);
        event := if next.alarmId.Some? then next.alarmId else prev.alarmId;
        armed, ok, w := ArmReconciliation(x, tr.actions, event, newArm);
        if ok { states := states[x.device := next]; }
      }
      if !ok {
        events.rows, tasks.store := events0, tasks0;    // the unit rolls back
      }
    }

    // What keeps a sample from being committed.
    predicate Obstructed(
      before: map<string, AlarmState>, t: Table, s: TaskStore.Store, x: Observation, newTask: TaskId,
      event: Option<EventId>)
    {
      var prev := StateOf(before, x.device);
      var tr := Apply(windows, prev, x.reading, x.now);
      || (prev.alarmId.Some? && prev.alarmId.value !in t)
      || TaskStore.ArchiveClash(TasksAfter(windows, s, prev, tr, x, newTask), ReconcileRequest(x, event).key, None)
    }

    // The tasks when the windows are projected and nothing is armed yet.
    function Projected(before: map<string, AlarmState>, s: TaskStore.Store, x: Observation, newTask: TaskId)
      : TaskStore.Store
    {
      var prev := StateOf(before, x.device);
      TasksAfter(windows, s, prev, Apply(windows, prev, x.reading, x.now), x, newTask)
    }

    function TasksCommitted(
      before: map<string, AlarmState>, s: TaskStore.Store, x: Observation, newTask: TaskId, newArm: TaskId,
      event: Option<EventId>, w: Option<TaskId>): Result<TaskStore.Store, TaskStore.Error>
    {
      var prev := StateOf(before, x.device);
      var tr := Apply(windows, prev, x.reading, x.now);
      TasksArmed(TasksAfter(windows, s, prev, tr, x, newTask), x, tr.actions, event, newArm, w)
    }

    predicate PendingCommitted(
      before: map<string, AlarmState>, s: TaskStore.Store, x: Observation, newTask: TaskId, pending: Option<TaskId>)
    {
      var prev := StateOf(before, x.device);
      var tr := Apply(windows, prev, x.reading, x.now);
      IsPending(windows, TasksAfter(windows, s, prev, tr, x, newTask), prev, tr, x, pending)
    }

    /** A whole sample with a crash anywhere.  If an external event action reaches
        its handler while the gates had been open at commit, an unfinished
        reconciliation task for that event was committed first, and it is still
        unfinished afterwards unless the write succeeded and was acknowledged. */
    method HandleSample(x: Observation, newEvent: EventId, newTask: TaskId, newArm: TaskId,
                        later: Gates, clearance: Clearance, succeeds: bool, crash: CrashPoint)
      returns (reached: bool, armed: Option<TaskId>, event: Option<EventId>, committed: bool,
               ghost reused: Option<EventId>, ghost w: Option<TaskId>)
      requires newEvent !in events.rows && x.device != ""
      requires newTask !in tasks.store.rows && newArm !in tasks.store.rows && newTask != newArm
      requires TaskStore.UniqueKeys(tasks.store)
      modifies this, events, tasks
      ensures crash == BeforeCommit ==> !committed
      ensures !committed ==>
                !reached && states == old(states) && events.rows == old(events.rows) && tasks.store == old(tasks.store)
      ensures !committed && crash != BeforeCommit ==>
                Obstructed(old(states), old(events.rows), old(tasks.store), x, newTask, event)
      ensures var prev := StateOf(old(states), x.device);
              var tr := Apply(windows, prev, x.reading, x.now);
              committed ==>
                && events.rows == EventsAfter(old(events.rows), prev, x, tr, newEvent, reused)
                && x.device in states && states == old(states)[x.device := states[x.device]]
                && states[x.device] == Saved(tr, newEvent, reused, states[x.device].taskId, x.episode)
                && PendingCommitted(old(states), old(tasks.store), x, newTask, states[x.device].taskId)
                && event == (if states[x.device].alarmId.Some? then states[x.device].alarmId else prev.alarmId)
                && (armed.Some? <==> x.gates.Enabled() && HasEventAction(tr.actions))
                && (reached <==> (crash == NoCrash || crash == BeforeFinish)
                                 && HasEventAction(tr.actions) && ReachesHandler(later, clearance))
      ensures committed ==>
                (armed.Some? <==>
                   && x.gates.modeActive && x.gates.standardsReady && x.gates.deviceInScope
                   && exists a :: a in Apply(windows, StateOf(old(states), x.device), x.reading, x.now).actions
                                  && (a.CreateAlarmEvent? || a.UpdateAlarmEvent? || a.MarkAlarmRecovered?))
      ensures reached && x.gates == later ==> armed.Some?
      ensures armed.Some? && !(reached && succeeds && crash == NoCrash) ==> Armed(tasks.store, armed.value, x, event)
      ensures armed.Some? && reached && succeeds && crash == NoCrash ==>
                armed.value in tasks.store.rows && tasks.store.rows[armed.value].status == TaskStore.Cancelled
      ensures armed.Some? && !(reached && succeeds && crash == NoCrash) ==>
                SafetyTaskStands(Projected(old(states), old(tasks.store), x, newTask), tasks.store, armed.value, x,
                                 event)
      ensures committed && !(reached && succeeds && crash == NoCrash) ==>
                TasksCommitted(old(states), old(tasks.store), x, newTask, newArm, event, w) == Ok(tasks.store)
    {
      hide Apply, EventsAfter, Obstructed, TasksCommitted, PendingCommitted, Projected, SafetyTaskStands;
      reached, armed, event, committed, reused, w := false, None, None, false, None, None;
      if crash == BeforeCommit { return; }
      var tr;
      tr, armed, event, committed, reused, w := LocalUnit(x, newEvent, newTask, newArm);
      if !committed { armed := None; return; }
      if crash == BeforeWrite || !exists a :: a in tr.actions && IsEventAction(a) { return; }
      reached := ReachesHandler(later, clearance);
      if crash == BeforeFinish { return; }
      if reached && succeeds && armed.Some? {
        var r := tasks.CancelTask(armed.value, x.now);
      }
    }
  }

  // ------------------------------------------------------- runs over all devices

  datatype World = World(states: map<string, AlarmState>, events: Table, clock: int)

  datatype Step =
    | Handle(x: Observation, newEvent: EventId, reused: Option<EventId>, taskId: Option<TaskId>)
    | Other(op: EventStore.Op)      // every other change of the event table

  function TransitionOf(win: Windows, w: World, x: Observation): Transition {
    Apply(win, StateOf(w.states, x.device), x.reading, x.now)
  }

  ghost predicate Legal(win: Windows, w: World, st: Step) {
    match st
    case Handle(x, newEvent, reused, _) =>
      && x.now >= w.clock && newEvent !in w.events && x.device != ""
      && (CreateAlarmEvent in TransitionOf(win, w, x).actions ==>
            EventStore.IsReused(w.events, x.device, KeyOf(x, TransitionOf(win, w, x)), reused))
    case Other(op) => !op.OpCreate?
  }

  function Do(win: Windows, w: World, st: Step): World {
    match st
    case Handle(x, newEvent, reused, taskId) =>
      var tr := TransitionOf(win, w, x);
      World(w.states[x.device := Saved(tr, newEvent, reused, taskId, x.episode)],
            EventsAfter(w.events, StateOf(w.states, x.device), x, tr, newEvent, reused), x.now)
    case Other(op) => w.(events := EventStore.Next(w.events, op))
  }

  predicate OpenFor(t: Table, e: EventId, device: string) {
    e in t && t[e].device == device && t[e].status != EventStore.Closed
  }

  // An open event is the one its raised alarm names.
  ghost predicate OpenIsRaised(w: World) {
    forall e :: e in w.events && w.events[e].status != EventStore.Closed ==>
      var s := StateOf(w.states, w.events[e].device);
      Raised(s) && s.alarmId == Some(e)
  }

  predicate Positive(win: Windows) { win.verifyAfter > 0 || win.recoveryAfter > 0 }

  // How late the key of an earlier cycle can be, given where the device stands.
  predicate KeyPast(win: Windows, s: AlarmState, start: int, clock: int) {
    match s.life
    case AtRest => start < clock
    case Verifying => s.violationAt.Some? && start < s.violationAt.value <= clock
    case InAlarm => start <= clock && (win.verifyAfter > 0 ==> start < clock)
    case Recovering =>
      s.recoveryAt.Some? && start <= s.recoveryAt.value <= clock && (win.verifyAfter > 0 ==> start < clock)
  }

  ghost predicate KeysPast(win: Windows, w: World) {
    forall e :: e in w.events ==>
      w.events[e].key.device == w.events[e].device
      && KeyPast(win, StateOf(w.states, w.events[e].device), w.events[e].key.start, w.clock)
  }

  predicate StateOk(win: Windows, w: World, d: string) {
    var s := StateOf(w.states, d);
    && (s.life == Verifying ==> s.violationAt.Some? && s.violationAt.value <= w.clock)
    && (s.life == Recovering ==> win.recoveryAfter > 0 && s.recoveryAt.Some? && s.recoveryAt.value <= w.clock)
    && (Raised(s) ==> s.alarmId.Some? && s.alarmId.value in w.events && w.events[s.alarmId.value].device == d)
  }

  ghost predicate Inv(win: Windows, w: World) {
    OpenIsRaised(w) && KeysPast(win, w) && forall d :: StateOk(win, w, d)
  }

  lemma OtherKeepsRows(t: Table, op: EventStore.Op, e: EventId)
    requires !op.OpCreate?
    ensures e in EventStore.Next(t, op) <==> e in t
    ensures e in t ==> EventStore.Grows(t[e], EventStore.Next(t, op)[e])
  {
    hide EventStore.BindRefused;
    if e in t { EventStore.StepGrows(t, op, e); }
  }

  lemma OtherKeepsInv(win: Windows, w: World, op: EventStore.Op)
    requires Inv(win, w) && !op.OpCreate?
    ensures Inv(win, Do(win, w, Other(op)))
  {
    hide EventStore.Next;
    var w' := Do(win, w, Other(op));
    forall e ensures (e in w'.events <==> e in w.events)
                  && (e in w.events ==> EventStore.Grows(w.events[e], w'.events[e]))
    {
      OtherKeepsRows(w.events, op, e);
    }
    assert forall d :: StateOk(win, w, d) ==> StateOk(win, w', d);
  }

  // No earlier cycle has the key of the one about to be created.
  lemma CreateIsFresh(win: Windows, w: World, st: Step)
    requires win.Valid() && Inv(win, w) && Legal(win, w, st) && st.Handle?
    requires CreateAlarmEvent in TransitionOf(win, w, st.x).actions
    ensures st.reused.None?
  {
    assert StateOk(win, w, st.x.device);
    var key := KeyOf(st.x, TransitionOf(win, w, st.x));
    forall e | e in w.events
      ensures !EventStore.HasKey(w.events, e, key) && !EventStore.IsActive(w.events, e, st.x.device)
    {
    }
  }

  // The row a handled sample leaves for event e.
  lemma HandledEvents(win: Windows, w: World, st: Step, e: EventId)
    requires win.Valid() && Inv(win, w) && Legal(win, w, st) && st.Handle?
    ensures var tr, t' := TransitionOf(win, w, st.x), Do(win, w, st).events;
            && (e in t' <==> e in w.events || (e == st.newEvent && CreateAlarmEvent in tr.actions))
            && (e in w.events ==> t'[e].device == w.events[e].device && t'[e].key == w.events[e].key)
            && (e in w.events && t'[e].status != EventStore.Closed ==>
                  w.events[e].status == t'[e].status
                  && !((exists a :: a in tr.actions && IsMark(a)) && w.events[e].device == st.x.device))
            && (e !in w.events && e in t' ==> t'[e].device == st.x.device && t'[e].key == KeyOf(st.x, tr))
  {
    var tr := TransitionOf(win, w, st.x);
    assert StateOk(win, w, st.x.device);
    StepCounts(win, StateOf(w.states, st.x.device), st.x.reading, st.x.now);
    if CreateAlarmEvent in tr.actions { CreateIsFresh(win, w, st); }
  }

  lemma HandleKeepsOpen(win: Windows, w: World, st: Step, e: EventId)
    requires win.Valid() && Inv(win, w) && Legal(win, w, st) && st.Handle?
    requires e in Do(win, w, st).events && Do(win, w, st).events[e].status != EventStore.Closed
    ensures var w' := Do(win, w, st); var s := StateOf(w'.states, w'.events[e].device);
            Raised(s) && s.alarmId == Some(e)
  {
    StepCounts(win, StateOf(w.states, st.x.device), st.x.reading, st.x.now);
    HandledEvents(win, w, st, e);
    if CreateAlarmEvent in TransitionOf(win, w, st.x).actions { CreateIsFresh(win, w, st); }
    hide EventsAfter, KeysPast;
  }

  lemma HandleKeepsKey(win: Windows, w: World, st: Step, e: EventId)
    requires win.Valid() && Positive(win) && Inv(win, w) && Legal(win, w, st) && st.Handle?
    requires e in Do(win, w, st).events
    ensures var w' := Do(win, w, st);
            && w'.events[e].key.device == w'.events[e].device
            && KeyPast(win, StateOf(w'.states, w'.events[e].device), w'.events[e].key.start, w'.clock)
  {
    assert StateOk(win, w, st.x.device);
    HandledEvents(win, w, st, e);
    hide EventsAfter, OpenIsRaised;
  }

  lemma HandleKeepsState(win: Windows, w: World, st: Step, d: string)
    requires win.Valid() && Inv(win, w) && Legal(win, w, st) && st.Handle?
    ensures StateOk(win, Do(win, w, st), d)
  {
    assert StateOk(win, w, d);
    var s := StateOf(Do(win, w, st).states, d);
    if CreateAlarmEvent in TransitionOf(win, w, st.x).actions { CreateIsFresh(win, w, st); }
    if s.alarmId.Some? { HandledEvents(win, w, st, s.alarmId.value); }
    StepCounts(win, StateOf(w.states, st.x.device), st.x.reading, st.x.now);
    hide EventsAfter, OpenIsRaised, KeysPast;
  }

  lemma StepKeepsInv(win: Windows, w: World, st: Step)
    requires win.Valid() && Positive(win) && Inv(win, w) && Legal(win, w, st)
    ensures Inv(win, Do(win, w, st))
  {
    if st.Other? {
      OtherKeepsInv(win, w, st.op);
    } else {
      hide Do, Legal, StateOk, KeyPast;
      var w' := Do(win, w, st);
      forall e | e in w'.events && w'.events[e].status != EventStore.Closed
        ensures Raised(StateOf(w'.states, w'.events[e].device))
        ensures StateOf(w'.states, w'.events[e].device).alarmId == Some(e)
      {
        HandleKeepsOpen(win, w, st, e);
      }
      forall e | e in w'.events
        ensures w'.events[e].key.device == w'.events[e].device
        ensures KeyPast(win, StateOf(w'.states, w'.events[e].device), w'.events[e].key.start, w'.clock)
      {
        HandleKeepsKey(win, w, st, e);
      }
      forall d ensures StateOk(win, w', d) { HandleKeepsState(win, w, st, d); }
    }
  }

  datatype History = History(start: int, steps: seq<Step>)

  function After(win: Windows, h: History, n: nat): World
    requires n <= |h.steps|
  {
    if n == 0 then World(map[], map[], h.start) else Do(win, After(win, h, n - 1), h.steps[n - 1])
  }

  ghost predicate LegalHistory(win: Windows, h: History) {
    forall i :: 0 <= i < |h.steps| ==> Legal(win, After(win, h, i), h.steps[i])
  }

  lemma {:induction false} HistoryInv(win: Windows, h: History, n: nat)
    requires win.Valid() && Positive(win) && LegalHistory(win, h) && n <= |h.steps|
    ensures Inv(win, After(win, h, n))
  {
    hide Do, Legal, Inv;
    if n > 0 {
      HistoryInv(win, h, n - 1);
      StepKeepsInv(win, After(win, h, n - 1), h.steps[n - 1]);
    } else {
      EmptyInv(win, h.start);
    }
  }

  lemma EmptyInv(win: Windows, start: int)
    ensures Inv(win, World(map[], map[], start))
  {
  }

  /** After every step an open event belongs to a raised alarm that names it, so
      no device ever has two, and every raised alarm names an event of its own
      device. */
  lemma OpenEventsAreRaisedAlarms(win: Windows, h: History, n: nat, e: EventId, d: string)
    requires win.Valid() && Positive(win) && LegalHistory(win, h) && n <= |h.steps|
    ensures var w := After(win, h, n);
            && (OpenFor(w.events, e, d) ==> Raised(StateOf(w.states, d)) && StateOf(w.states, d).alarmId == Some(e))
            && (Raised(StateOf(w.states, d)) ==>
                  var a := StateOf(w.states, d).alarmId;
                  a.Some? && a.value in w.events && w.events[a.value].device == d)
            && (forall o :: OpenFor(w.events, e, d) && OpenFor(w.events, o, d) ==> e == o)
  {
    HistoryInv(win, h, n);
    assert StateOk(win, After(win, h, n), d);
    hide After;
  }

  // Observation i of the history creates an alarm event.
  ghost predicate CreatesAt(win: Windows, h: History, i: nat)
    requires i < |h.steps|
  {
    h.steps[i].Handle? && CreateAlarmEvent in TransitionOf(win, After(win, h, i), h.steps[i].x).actions
  }

  // Every creation opens a new event, in every legal history.
  ghost predicate AlwaysFresh(win: Windows) {
    forall h, i: nat :: LegalHistory(win, h) && i < |h.steps| && CreatesAt(win, h, i) ==> h.steps[i].reused.None?
  }

  // Two cycles at one instant share their key: the second reuses a closed event.
  function ZeroHistory(): History {
    var bad := Observation("D", Violation, 0, Gates(false, false, false), NO_EPISODE, None);
    var begin, again := Handle(bad, 0, None, None), Handle(bad, 1, Some(0), None);
    var recover := Handle(bad.(reading := Normal), 1, None, None);
    History(0, [begin, begin, recover, Handle(bad, 1, None, None), again])
  }

  lemma FirstCycle(win: Windows)
    requires win == Windows(0, 0)
    ensures var w := After(win, ZeroHistory(), 2);
            && StateOf(w.states, "D").life == InAlarm && StateOf(w.states, "D").alarmId == Some(0) && w.clock == 0
            && w.events == map[0 := EventStore.NewEvent("D", EventStore.EventKey("D", 0), 0)]
    ensures forall i :: 0 <= i < 2 ==> Legal(win, After(win, ZeroHistory(), i), ZeroHistory().steps[i])
  {
    var h := ZeroHistory();
    assert After(win, h, 0) == World(map[], map[], 0);
    assert After(win, h, 1).events == map[] && StateOf(After(win, h, 1).states, "D").life == Verifying;
    assert EventStore.IsReused(map[], "D", EventStore.EventKey("D", 0), None);
    assert Legal(win, After(win, h, 1), h.steps[1]);
  }

  lemma ZeroWindowsReuse(win: Windows)
    requires win == Windows(0, 0)
    ensures !AlwaysFresh(win)
  {
    var h := ZeroHistory();
    FirstCycle(win);
    var e := EventStore.NewEvent("D", EventStore.EventKey("D", 0), 0);
    assert MarkAlarmRecovered(Some(0)) in TransitionOf(win, After(win, h, 2), h.steps[2].x).actions;
    var closed := e.(status := EventStore.Closed, closedAt := Some(0));
    assert After(win, h, 3).events == map[0 := closed] && StateOf(After(win, h, 3).states, "D").life == AtRest;
    assert After(win, h, 4).events == map[0 := closed] && StateOf(After(win, h, 4).states, "D").life == Verifying;
    assert EventStore.HasKey(map[0 := closed], 0, EventStore.EventKey("D", 0));
    assert CreatesAt(win, h, 4) && Legal(win, After(win, h, 4), h.steps[4]);
    assert LegalHistory(win, h) && h.steps[4].reused.Some?;
  }

  /** Each creation opens a fresh event in every history exactly when the
      verification window or the recovery window is positive. */
  lemma FreshIffPositive(win: Windows)
    requires win.Valid()
    ensures AlwaysFresh(win) <==> Positive(win)
  {
    if Positive(win) {
      forall h, i: nat | LegalHistory(win, h) && i < |h.steps| && CreatesAt(win, h, i)
        ensures h.steps[i].reused.None?
      {
        HistoryInv(win, h, i);
        CreateIsFresh(win, After(win, h, i), h.steps[i]);
      }
    } else {
      ZeroWindowsReuse(win);
    }
  }
}
