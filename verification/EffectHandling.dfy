/**
 Handling of the alarm's external actions: find or create the remote record,
 bind it, write it, and keep durable proof of every effect that took place.
 */
module EffectHandling {
  import opened Base
  import opened EventStore
  import opened CreateProtocol

  datatype ActionKind = CreateAction | UpdateAction | RecoverAction

  // A lookup by business key; Broken stands for duplicates and read errors.
  datatype Lookup = Found(rec: Record) | Missing | Broken

  datatype Repair = NotNeeded | Repaired | RepairFailed

  datatype WriteResult = Written | RecordDeleted | WriteFailed

  // Everything the remote side and the caller's context contribute to one call;
  // ownerKnown says that the device's responsible person and its area are known.
  datatype Env = Env(
    startMatches: bool, reconciling: bool, resolve: Lookup, beforeCreate: Lookup, afterError: Lookup,
    unresolved: Option<Record>, repair: Repair, reopen: WriteResult, ownerKnown: bool,
    created: Result<Option<Record>, Failure>, write: WriteResult)

  datatype Call = Call(kind: ActionKind, e: EventId, device: string, effect: string, at: int, owner: string,
                       lease: int, env: Env)

  ghost predicate Sound(t: Table) { Ownership(t) && OneActive(t) }

  // Rows only grow: bindings, closures and proofs present in t are present in u.
  ghost predicate Extended(t: Table, u: Table) {
    forall e :: e in t ==> e in u && Grows(t[e], u[e])
  }

  lemma ExtendedIsTransitive(t: Table, u: Table, v: Table)
    requires Extended(t, u) && Extended(u, v)
    ensures Extended(t, v)
  {
  }

  lemma StepExtends(t: Table, op: Op)
    requires Sound(t) && Enabled(t, op)
    ensures Sound(Next(t, op)) && Extended(t, Next(t, op))
  {
    StepKeepsOwnership(t, op);
    hide Next, Enabled, Grows;
    forall e | e in t ensures e in Next(t, op) && Grows(t[e], Next(t, op)[e]) { StepGrows(t, op, e); }
  }

  lemma ProofIsKept(t: Table, u: Table, e: EventId, effect: string)
    requires Extended(t, u) && Proven(t, e, effect)
    ensures Proven(u, e, effect) && u[e].effects[effect] == t[e].effects[effect]
  {
  }

  predicate Marked(t: Table, e: EventId, effect: string, m: Marker) {
    e in t && effect in t[e].effects && t[e].effects[effect] == m
  }

  // Whether a POST may be made depends on these three entries only.
  predicate SamePostState(v: Event, u: Event) {
    u.record == v.record && u.attempted == v.attempted && u.createState == v.createState
  }

  lemma ExtendedIsReflexive(t: Table)
    ensures Extended(t, t)
  {
  }

  lemma RowsRemain(t: Table, u: Table, e: EventId)
    requires e in t && Extended(t, u)
    ensures e in u
  {
  }

  lemma MayPostIsKept(x: Event, y: Event)
    requires SamePostState(x, y)
    ensures MayPost(x) == MayPost(y)
  {
  }

  lemma NoteKeepsPostState(t: Table, op: Op, e: EventId)
    requires e in t && (op.OpEffect? || op.OpClaim?)
    ensures e in Next(t, op) && SamePostState(t[e], Next(t, op)[e])
  {
  }

  lemma SuccessIsProof(t: Table, e: EventId, effect: string, at: int, note: string)
    requires e in t && effect != ""
    ensures Proven(Next(t, OpEffect(e, effect, Marker(MarkerSucceeded, at, note))), e, effect)
  {
  }

  // ------------------------------------------------------- calls as acts of the protocol

  // The worker and request id a call stands for, and whether the remote side
  // executes the request when the answer leaves that open.
  datatype Role = Role(worker: Worker, request: RequestId, executes: bool)

  // A call so far: the acts it amounts to, and the request it has sent.
  datatype Play = Play(start: World, role: Role, acts: seq<Act>, post: Option<Post>)

  // The acts are legal, lead to table t, leave the worker idle and everyone else alone.
  ghost predicate Tracks(p: Play, t: Table) {
    && LegalFrom(p.start, p.acts)
    && var u := Final(p.start, p.acts);
    && u.table == t && StageOf(u, p.role.worker) == Idle
    && u.posts == (if p.post.Some? then p.start.posts[p.role.request := p.post.value] else p.start.posts)
    && forall v :: v != p.role.worker ==> StageOf(u, v) == StageOf(p.start, v)
  }

  predicate Unsent(p: Play) { p.post.None? && p.role.request !in p.start.posts }

  predicate SamePlay(p: Play, q: Play) { q.start == p.start && q.role == p.role }

  predicate IsLocal(op: Op) { !op.OpReserve? && !op.OpOutcome? && !op.OpCreate? }

  function Plus(p: Play, op: Op): Play { p.(acts := p.acts + [Local(op)]) }

  lemma LocalTracks(p: Play, t: Table, op: Op)
    requires Tracks(p, t) && IsLocal(op)
    ensures Tracks(Plus(p, op), Next(t, op))
  {
    assert Allowed(Final(p.start, p.acts), Local(op));
    hide Next;
    OneAct(Final(p.start, p.acts), Local(op));
    ActsJoin(p.start, p.acts, [Local(op)]);
  }

  lemma NewPlayTracks(p: Play)
    requires p.acts == [] && p.post == None && StageOf(p.start, p.role.worker) == Idle
    ensures Tracks(p, p.start.table)
  {
  }

  // What became of a request, by the answer to it.
  function FateOf(created: Result<Option<Record>, Failure>, executes: bool): Fate {
    if created.Ok? then Executed
    else if created.error == NotPersisted then Void
    else if executes then Executed else Sent
  }

  // What a create call that sent a POST hands back, and whether it reports an outcome.
  function CreateAnswer(c: Call): (Option<Record>, bool) {
    if c.env.created.Ok? then (c.env.created.value, true)
    else if c.env.afterError.Found? then (Some(c.env.afterError.rec), true)
    else (None, false)
  }

  predicate Reports(c: Call) { c.env.created.Err? && c.env.afterError.Missing? }

  function OutcomeOp(c: Call): Op
    requires c.env.created.Err?
  {
    OpOutcome(c.e, CreateFailureOutcome(c.env.created.error), Some(CREATE_FAILED))
  }

  // The request on record after a call of p's role.
  function SentBy(c: Call, p: Play, posted: bool): Option<Post> {
    if posted then Some(Post(c.e, FateOf(c.env.created, p.role.executes))) else p.post
  }

  // A create call sends its POST: nothing found, nobody to reuse, and no try left open.
  predicate SendsPost(c: Call, v: Event) {
    && c.env.beforeCreate.Missing? && c.env.unresolved.None? && c.env.ownerKnown
    && v.record.None? && (!v.attempted || v.createState == Some(Retryable))
  }

  // What a create call for row v hands back: the row found by key, the reopened
  // unresolved row, the new row, or the row found after the request failed.
  predicate Obtains(c: Call, v: Event, rec: Record) {
    if c.env.beforeCreate.Missing? then
      if c.env.unresolved.Some? then
        !v.attempted && c.env.repair != RepairFailed && c.env.reopen == Written && c.env.unresolved.value == rec
      else
        && SendsPost(c, v)
        && (c.env.created == Ok(Some(rec)) || (c.env.created.Err? && c.env.afterError == Found(rec)))
    else
      c.env.beforeCreate == Found(rec) && c.env.repair != RepairFailed
  }

  // The cycle is unbound and this call becomes its record.
  ghost predicate CreatesRecord(c: Call, t: Table, rec: Record)
    requires c.e in t
  {
    && t[c.e].record.None? && c.owner != "" && !Leased(t[c.e], c.at)
    && Obtains(c, t[c.e], rec) && Bindable(t, c.e, rec)
  }

  // The cycle's create is free to this call, which asks for a new row.
  predicate CreatesRequest(c: Call, v: Event) { c.owner != "" && !Leased(v, c.at) && SendsPost(c, v) }

  lemma RecordIsNew(c: Call, t: Table, rec: Record)
    requires c.e in t && CreatesRecord(c, t, rec)
    ensures t[c.e].record.None?
  {
  }

  // The record a call works on: the bound one, the one found for an update or a
  // recovery, or the one a create or an update obtains.
  ghost predicate Secures(c: Call, t: Table, rec: Record)
    requires c.e in t
  {
    || t[c.e].record == Some(rec)
    || (t[c.e].record.None? && c.kind != CreateAction && c.env.resolve == Found(rec) && Bindable(t, c.e, rec))
    || ((c.kind == CreateAction || (c.kind == UpdateAction && c.env.resolve.Missing?)) && CreatesRecord(c, t, rec))
  }

  // The call names a known cycle of its device and start, and no other call is
  // still to settle whether the cycle has a remote row.
  predicate Addressed(c: Call, t: Table) {
    && c.e in t && t[c.e].device == c.device && c.env.startMatches
    && (c.kind == UpdateAction && t[c.e].record.None? && t[c.e].attempted ==> c.env.reconciling)
  }

  // The effect of an update or recovery is on record or no longer asked for.
  predicate Settled(c: Call, t: Table)
    requires c.e in t
  {
    || (c.effect in t[c.e].effects && t[c.e].effects[c.effect].status == MarkerSucceeded)
    || t[c.e].notes.missing || t[c.e].supersededBy.Some?
  }

  // A CREATE for a cycle that has its record already.
  predicate Bound(c: Call, t: Table) { c.kind == CreateAction && c.e in t && t[c.e].record.Some? }

  // The call returns normally: its effect was settled before, or its record can be
  // had and, for an update or recovery, written.
  ghost predicate Finishes(c: Call, t: Table) {
    && Addressed(c, t)
    && ((c.kind != CreateAction && Settled(c, t))
        || ((c.kind == CreateAction || c.env.write != WriteFailed) && exists rec :: Secures(c, t, rec)))
  }

  // The call sends a POST: a create, or an update that finds no record.
  predicate MakesPost(c: Call, t: Table) {
    && Addressed(c, t) && CreatesRequest(c, t[c.e])
    && (c.kind == CreateAction || (c.kind == UpdateAction && !Settled(c, t) && c.env.resolve.Missing?))
  }

  // A CREATE of an unbound cycle whose claim is free: nothing is found, nobody is to
  // be reused, the responsible person is known, no try is open, and the new row can
  // be bound.
  ghost predicate AsksForNewRow(c: Call, t: Table) {
    && c.kind == CreateAction && c.e in t && t[c.e].device == c.device && c.env.startMatches
    && t[c.e].record.None? && c.owner != ""
    && (t[c.e].notes.owner.None? || t[c.e].notes.leaseUntil.None? || t[c.e].notes.leaseUntil.value <= c.at)
    && c.env.beforeCreate.Missing? && c.env.unresolved.None? && c.env.ownerKnown
    && (!t[c.e].attempted || t[c.e].createState == Some(Retryable))
    && c.env.created.Ok? && c.env.created.value.Some? && Bindable(t, c.e, c.env.created.value.value)
  }

  lemma NewRowIsSecured(c: Call, t: Table)
    requires AsksForNewRow(c, t)
    ensures Addressed(c, t) && c.kind == CreateAction && CreatesRequest(c, t[c.e])
    ensures c.env.created.Ok? && c.env.created.value.Some?
    ensures forall rec :: Secures(c, t, rec) <==> c.env.created.value == Some(rec)
    ensures Secures(c, t, c.env.created.value.value) && CreatesRecord(c, t, c.env.created.value.value)
  {
    hide Bindable;
    assert Secures(c, t, c.env.created.value.value);
  }

  lemma SecuredByCreate(c: Call, t: Table)
    requires c.kind == CreateAction && c.e in t
    ensures forall rec :: t[c.e].record == Some(rec) ==> Secures(c, t, rec)
    ensures t[c.e].record.None? ==> forall rec :: Secures(c, t, rec) <==> CreatesRecord(c, t, rec)
    ensures t[c.e].record.Some? ==> !CreatesRequest(c, t[c.e])
  {
  }

  lemma RequestIsNew(c: Call, v: Event)
    requires CreatesRequest(c, v)
    ensures v.record.None?
  {
  }

  lemma RequestByRow(c: Call, v: Event, u: Event)
    requires u == v.(effects := u.effects)
    ensures CreatesRequest(c, v) <==> CreatesRequest(c, u)
  {
  }

  // Other rows' devices, starts, states and bindings decide what may be bound.
  ghost predicate SameOwners(t: Table, u: Table) {
    && u.Keys == t.Keys
    && forall o :: o in t ==>
         && u[o].device == t[o].device && u[o].status == t[o].status
         && u[o].openedAt == t[o].openedAt && u[o].record == t[o].record
  }

  ghost predicate SameButEffects(t: Table, u: Table) {
    u.Keys == t.Keys && forall o :: o in t ==> u[o] == t[o].(effects := u[o].effects)
  }

  lemma OwnersDecideBinding(t: Table, u: Table, e: EventId, rec: Record)
    requires SameOwners(t, u) && e in t
    ensures Bindable(t, e, rec) <==> Bindable(u, e, rec)
  {
    assert Inherits(t, e, rec) <==> Inherits(u, e, rec);
  }

  lemma EffectsDoNotDecide(c: Call, t: Table, u: Table, rec: Record)
    requires SameButEffects(t, u) && c.e in t
    ensures Secures(c, t, rec) <==> Secures(c, u, rec)
  {
    hide Obtains, Bindable;
    assert Obtains(c, t[c.e], rec) <==> Obtains(c, u[c.e], rec) by { ObtainsByRow(c, t[c.e], u[c.e], rec); }
    OwnersDecideBinding(t, u, c.e, rec);
  }

  lemma ObtainsByRow(c: Call, v: Event, u: Event, rec: Record)
    requires SamePostState(v, u)
    ensures Obtains(c, v, rec) <==> Obtains(c, u, rec)
    ensures SendsPost(c, v) <==> SendsPost(c, u)
  {
  }

  lemma OpsKeepOwners(t: Table, op: Op)
    requires op.OpClaim? || op.OpReserve? || op.OpOutcome?
    ensures SameOwners(t, Next(t, op))
  {
    hide Bind, MayPost, Notes.Unleased;
  }

  lemma EffectKeepsTheRest(t: Table, op: Op)
    requires op.OpEffect?
    ensures SameButEffects(t, Next(t, op))
  {
    hide Proven;
  }

  // Winning the create changes nothing about what it will do.
  lemma ClaimDoesNotDecide(c: Call, t: Table, u: Table)
    requires c.e in t && u == Next(t, OpClaim(c.e, c.owner, c.at, c.lease))
    ensures c.e in u && SameOwners(t, u) && MayPost(u[c.e]) == MayPost(t[c.e])
    ensures SendsPost(c, t[c.e]) <==> SendsPost(c, u[c.e])
    ensures forall rec :: Obtains(c, t[c.e], rec) <==> Obtains(c, u[c.e], rec)
  {
    OpsKeepOwners(t, OpClaim(c.e, c.owner, c.at, c.lease));
    NoteKeepsPostState(t, OpClaim(c.e, c.owner, c.at, c.lease), c.e);
    ObtainsByRow(c, t[c.e], u[c.e], "");
    MayPostIsKept(t[c.e], u[c.e]);
    hide Next, Obtains, SendsPost, MayPost;
    forall rec ensures Obtains(c, t[c.e], rec) <==> Obtains(c, u[c.e], rec) {
      ObtainsByRow(c, t[c.e], u[c.e], rec);
    }
  }

  lemma OwnersStay(t: Table)
    ensures SameOwners(t, t)
  {
  }

  lemma OwnersCompose(t: Table, u: Table, v: Table)
    requires SameOwners(t, u) && SameOwners(u, v)
    ensures SameOwners(t, v)
  {
  }

  const CREATE_FAILED := "create failed"

  // The acts of a create call that sends its POST: sending, the answer, and how
  // its worker lets go.
  function PostActs(c: Call, k: Role): seq<Act> { SendActs(c, k) + [AnswerAct(c, k)] + [LastAct(c, k)] }

  predicate Executes(c: Call, k: Role) { FateOf(c.env.created, k.executes) == Executed }

  function SendActs(c: Call, k: Role): seq<Act> {
    [Reserve(k.worker, c.e), Send(k.worker, k.request)] + if Executes(c, k) then [Execute(k.request)] else []
  }

  function AnswerAct(c: Call, k: Role): Act {
    if c.env.created.Ok? then Answer(k.worker) else Fail(k.worker, c.env.created.error)
  }

  function LastAct(c: Call, k: Role): Act {
    if Reports(c) then Report(k.worker, Some(CREATE_FAILED))
    else if CreateAnswer(c).0.Some? then FinishBind(k.worker, CreateAnswer(c).0.value)
    else Crash(k.worker)
  }

  // The table it leaves.
  function PostTable(c: Call, t: Table): Table {
    var t1 := Next(t, OpReserve(c.e));
    if Reports(c) then Next(t1, OutcomeOp(c))
    else if CreateAnswer(c).0.Some? then Next(t1, OpBind(c.e, CreateAnswer(c).0.value))
    else t1
  }

  /** Every branch of a create call that sends its POST is a legal sequence of acts:
      reserve, send, execute or not, answer or failure, and report, binding or release. */
  lemma PostTracks(p: Play, t: Table, c: Call)
    requires Tracks(p, t) && Unsent(p) && c.e in t && MayPost(t[c.e])
    ensures var post := Post(c.e, FateOf(c.env.created, p.role.executes));
            Tracks(p.(acts := p.acts + PostActs(c, p.role), post := Some(post)), PostTable(c, t))
  {
    var s, k := Final(p.start, p.acts), p.role;
    SendingIsLegal(s, c, k);
    var sending := SendActs(c, k);
    var s1 := Final(s, sending);
    AnsweringIsLegal(s, s1, c, k);
    OneAct(s1, AnswerAct(c, k));
    ActsJoin(s, sending, [AnswerAct(c, k)]);
    var s2 := Do(s1, AnswerAct(c, k));
    LettingGoIsLegal(s, s2, c, k);
    OneAct(s2, LastAct(c, k));
    ActsJoin(s, sending + [AnswerAct(c, k)], [LastAct(c, k)]);
    ActsJoin(p.start, p.acts, PostActs(c, k));
    hide Final, LegalFrom, MayPost, Do, Allowed, PostTable, SendActs, AnswerAct, LastAct;
  }

  // The answer reaches the worker.
  lemma AnsweringIsLegal(s: World, s1: World, c: Call, k: Role)
    requires s1.workers == s.workers[k.worker := Waiting(c.e, k.request)]
    requires s1.posts == s.posts[k.request := Post(c.e, if Executes(c, k) then Executed else Sent)]
    ensures Allowed(s1, AnswerAct(c, k))
    ensures Do(s1, AnswerAct(c, k)) == World(s1.table, s.workers[k.worker := Told(c, k)],
                                             s.posts[k.request := Post(c.e, FateOf(c.env.created, k.executes))])
  {
  }

  function Told(c: Call, k: Role): Stage {
    if c.env.created.Ok? then Answered(c.e, k.request) else Failing(c.e, k.request, c.env.created.error)
  }

  // The worker reports, binds or stops.
  lemma LettingGoIsLegal(s: World, s2: World, c: Call, k: Role)
    requires s2.table == Next(s.table, OpReserve(c.e)) && s2.workers == s.workers[k.worker := Told(c, k)]
    ensures Allowed(s2, LastAct(c, k))
    ensures Do(s2, LastAct(c, k)) == World(PostTable(c, s.table), s.workers[k.worker := Idle], s2.posts)
  {
    hide Bind, MarkOutcome, ReservePost;
  }

  // Reserve, send and perhaps execute.
  lemma SendingIsLegal(s: World, c: Call, k: Role)
    requires StageOf(s, k.worker) == Idle && k.request !in s.posts && c.e in s.table && MayPost(s.table[c.e])
    ensures LegalFrom(s, SendActs(c, k))
    ensures Final(s, SendActs(c, k))
            == World(Next(s.table, OpReserve(c.e)), s.workers[k.worker := Waiting(c.e, k.request)],
                     s.posts[k.request := Post(c.e, if Executes(c, k) then Executed else Sent)])
  {
    var reserve, send, execute := Reserve(k.worker, c.e), Send(k.worker, k.request), Execute(k.request);
    OneAct(s, reserve);
    var s1 := Do(s, reserve);
    assert s1 == World(Next(s.table, OpReserve(c.e)), s.workers[k.worker := Reserved(c.e)], s.posts);
    OneAct(s1, send);
    ActsJoin(s, [reserve], [send]);
    var s2 := Do(s1, send);
    if Executes(c, k) {
      OneAct(s2, execute);
      ActsJoin(s, [reserve] + [send], [execute]);
      assert [reserve] + [send] + [execute] == [reserve, send] + [execute];
    } else {
      assert [reserve] + [send] == [reserve, send] + [];
    }
  }

  class EventWriter {
    const repository: EventRepository
    var writes: nat      // remote writes of any kind
    var posts: nat       // those that ask for a new remote record

    constructor (repository: EventRepository)
      ensures this.repository == repository && writes == 0 && posts == 0
    {
      this.repository, writes, posts := repository, 0, 0;
    }

    // One repository operation; the answer says whether it took effect.
    method Perform(op: Op) returns (ok: bool)
      requires Sound(repository.rows) && !op.OpCreate?
      modifies repository
      ensures repository.rows == Next(old(repository.rows), op)
      ensures Sound(repository.rows) && Extended(old(repository.rows), repository.rows)
      ensures op.OpBind? ==> (ok <==> Bind(old(repository.rows), op.e, op.rec).Ok?)
      ensures op.OpBind? ==> (ok <==> Bindable(old(repository.rows), op.e, op.rec))
      ensures op.OpReserve? ==> (ok <==> op.e in old(repository.rows) && MayPost(old(repository.rows)[op.e]))
      ensures op.OpClaim? ==>
                (ok <==> op.owner != "" && op.e in old(repository.rows) && !Leased(old(repository.rows)[op.e], op.at))
      ensures !ok && !op.OpEffect? ==> repository.rows == old(repository.rows)
    {
      StepExtends(repository.rows, op);
      match op {
        case OpClose(e, at) => var r := repository.CloseEvent(e, at); ok := r.Ok?;
        case OpMissing(e, at) => var r := repository.MarkExternalRecordMissing(e, at); ok := r.Ok?;
        case OpPatch(e, p) => var r := repository.PatchExternalProjection(e, p); ok := r.Ok?;
        case OpReserve(e) => var r := repository.ReserveExternalPost(e); ok := r == Ok(true);
        case OpOutcome(e, o, error) => var r := repository.MarkExternalCreateOutcome(e, o, error); ok := r.Ok?;
        case OpBind(e, rec) => var r := repository.BindExternalRecord(e, rec); ok := r.Ok?;
        case OpEffect(e, effect, m) => var r := repository.PatchExternalEffect(e, effect, m); ok := r.Ok?;
        case OpPending(e, at) => var r := repository.MarkExternalBindingPending(e, at); ok := r.Ok?;
        case OpClaim(e, owner, at, lease) =>
          var r := repository.ClaimExternalCreate(e, owner, at, lease);
          ok := r == Ok(true);
      }
    }

    // The table moved on soundly and nothing but growth happened to it.
    twostate predicate Advanced()
      reads repository
    {
      Sound(repository.rows) && Extended(old(repository.rows), repository.rows)
    }

    /** Finds the remote record of a cycle or asks for a new one, at most once,
        and only while the table allows a POST. */
    method CreateEvent(c: Call) returns (rec: Option<Record>, ok: bool)
      requires Sound(repository.rows) && c.e in repository.rows
      modifies repository, this
      ensures Advanced()
      ensures old(writes) <= writes && posts == old(posts) + if SendsPost(c, old(repository.rows)[c.e]) then 1 else 0
      ensures forall x :: ok && rec == Some(x) <==> Obtains(c, old(repository.rows)[c.e], x)
      ensures SameOwners(old(repository.rows), repository.rows)
      ensures c.env.beforeCreate.Broken? ==> !ok && posts == old(posts)
      ensures c.env.beforeCreate.Found? ==>
                && rec == Some(c.env.beforeCreate.rec) && (ok <==> c.env.repair != RepairFailed)
                && posts == old(posts)
      ensures c.env.beforeCreate.Missing? && c.env.unresolved.Some? ==>
                && posts == old(posts) && (ok ==> rec == c.env.unresolved && writes > old(writes))
                && (ok <==> && !old(repository.rows)[c.e].attempted && c.env.repair != RepairFailed
                            && c.env.reopen == Written)
      ensures c.env.beforeCreate.Missing? && c.env.unresolved.None? ==>
                var v := old(repository.rows)[c.e];
                && (if && c.env.ownerKnown && v.record.None?
                       && (v.attempted ==> v.createState == Some(Retryable))
                    then posts == old(posts) + 1 && writes == old(writes) + 1
                    else !ok && posts == old(posts) && writes == old(writes))
                && (posts > old(posts) ==>
                      && (c.env.created.Ok? ==> ok && rec == c.env.created.value)
                      && (c.env.created.Err? ==>
                            match c.env.afterError
                            case Found(x) => ok && rec == Some(x)
                            case Missing =>
                              && !ok && repository.rows[c.e].notes.owner.None?
                              && repository.rows[c.e].createState == Some(CreateFailureOutcome(c.env.created.error))
                            case Broken => !ok && repository.rows[c.e].createState == Some(InFlight)))
      ensures posts > old(posts) ==> MayPost(old(repository.rows)[c.e])
      ensures posts > old(posts) && MayPost(repository.rows[c.e]) ==> c.env.created == Err(NotPersisted)
      ensures posts > old(posts) ==> repository.rows[c.e].attempted
      ensures posts == old(posts) ==> repository.rows == old(repository.rows)
      ensures posts > old(posts) ==> (rec, ok) == CreateAnswer(c)
      ensures posts > old(posts) ==>
                repository.rows == if Reports(c) then Next(Next(old(repository.rows), OpReserve(c.e)), OutcomeOp(c))
                                   else Next(old(repository.rows), OpReserve(c.e))
    {
      hide Next, Sound, Extended, SameOwners;
      ghost var t0 := repository.rows;
      ExtendedIsReflexive(t0);
      OwnersStay(t0);
      if c.env.beforeCreate.Broken? { return None, false; }
      if c.env.beforeCreate.Found? {
        if c.env.repair != NotNeeded { writes := writes + 1; }
        return Some(c.env.beforeCreate.rec), c.env.repair != RepairFailed;
      }
      if c.env.unresolved.Some? {
        if repository.rows[c.e].attempted { return None, false; }
        if c.env.repair != NotNeeded { writes := writes + 1; }
        if c.env.repair == RepairFailed { return None, false; }
        writes := writes + 1;
        return c.env.unresolved, c.env.reopen == Written;
      }
      if !c.env.ownerKnown { return None, false; }
      var reserved := Perform(OpReserve(c.e));
      if !reserved { return None, false; }
      writes, posts := writes + 1, posts + 1;
      ReservationClosesPost(t0, c.e);
      OpsKeepOwners(t0, OpReserve(c.e));
      if c.env.created.Ok? { return c.env.created.value, true; }
      if c.env.afterError.Broken? { return None, false; }
      if c.env.afterError.Found? { return Some(c.env.afterError.rec), true; }
      ghost var t1 := repository.rows;
      var marked := Perform(OutcomeOp(c));
      OutcomeDecidesPost(t1, c.e, CreateFailureOutcome(c.env.created.error), Some(CREATE_FAILED));
      ExtendedIsTransitive(t0, t1, repository.rows);
      OpsKeepOwners(t1, OutcomeOp(c));
      OwnersCompose(t0, t1, repository.rows);
      return None, false;
    }

    lemma ReservationClosesPost(t: Table, e: EventId)
      requires e in t && MayPost(t[e])
      ensures e in Next(t, OpReserve(e)) && !MayPost(Next(t, OpReserve(e))[e])
      ensures Next(t, OpReserve(e))[e].attempted && Next(t, OpReserve(e))[e].createState == Some(InFlight)
    {
    }

    lemma OutcomeDecidesPost(t: Table, e: EventId, o: Outcome, error: Option<string>)
      requires e in t && t[e].attempted
      ensures e in Next(t, OpOutcome(e, o, error)) && (MayPost(Next(t, OpOutcome(e, o, error))[e]) ==> o == Retryable)
      ensures var v := Next(t, OpOutcome(e, o, error))[e];
              v.createState == Some(o) && v.attempted && v.notes.owner.None?
    {
    }

    // Elects this call for the create, or finds that another one has finished.
    method ClaimExternalCreate(c: Call) returns (ok: bool)
      requires Sound(repository.rows) && c.e in repository.rows
      modifies repository
      ensures Advanced() && c.e in repository.rows
      ensures ok <==> || old(repository.rows)[c.e].record.Some?
                      || (c.owner != "" && !Leased(old(repository.rows)[c.e], c.at))
      ensures SamePostState(old(repository.rows)[c.e], repository.rows[c.e])
      ensures repository.rows == Next(old(repository.rows), OpClaim(c.e, c.owner, c.at, c.lease))
    {
      NoteKeepsPostState(repository.rows, OpClaim(c.e, c.owner, c.at, c.lease), c.e);
      hide Next, Sound;
      var won := Perform(OpClaim(c.e, c.owner, c.at, c.lease));
      ok := won || repository.rows[c.e].record.Some?;
    }

    // Claim, create and bind; on success the cycle is bound.
    method CreateAndBind(c: Call, ghost p: Play) returns (ok: bool, ghost q: Play)
      requires Sound(repository.rows) && c.e in repository.rows && repository.rows[c.e].record.None?
      requires Tracks(p, repository.rows) && Unsent(p)
      modifies repository, this
      ensures Advanced()
      ensures old(writes) <= writes && old(posts) <= posts <= old(posts) + 1
      ensures posts > old(posts) <==> CreatesRequest(c, old(repository.rows)[c.e])
      ensures posts > old(posts) ==> MayPost(old(repository.rows)[c.e])
      ensures ok <==> exists rec :: CreatesRecord(c, old(repository.rows), rec)
      ensures ok ==> && repository.rows[c.e].record.Some?
                     && CreatesRecord(c, old(repository.rows), repository.rows[c.e].record.value)
      ensures posts > old(posts) && MayPost(repository.rows[c.e]) ==> c.env.created == Err(NotPersisted)
      ensures Tracks(q, repository.rows) && SamePlay(p, q) && q.post == SentBy(c, p, posts > old(posts))
    {
      hide Next, Sound, Extended, Tracks, PostActs, Obtains, Bindable, SendsPost, SameOwners, MayPost, Leased;
      hide SamePostState, Bind;
      ghost var t0, posts0 := repository.rows, posts;
      var claimed := ClaimExternalCreate(c);
      ghost var t1 := repository.rows;
      ClaimDoesNotDecide(c, t0, t1);
      LocalTracks(p, t0, OpClaim(c.e, c.owner, c.at, c.lease));
      q := Plus(p, OpClaim(c.e, c.owner, c.at, c.lease));
      if !claimed { return false, q; }
      var rec, created := CreateEvent(c);
      ghost var t2 := repository.rows;
      ExtendedIsTransitive(t0, t1, t2);
      RowsRemain(t0, t2, c.e);
      if posts > posts0 {
        PostTracks(q, t1, c);
        q := q.(acts := q.acts + PostActs(c, q.role), post := SentBy(c, p, true));
      }
      if !created || rec.None? { return false, q; }
      OwnersCompose(t0, t1, t2);
      OwnersDecideBinding(t0, t2, c.e, rec.value);
      ok := Perform(OpBind(c.e, rec.value));
      if ok {
        BindBinds(t2, c.e, rec.value);
        assert CreatesRecord(c, t0, rec.value);
      }
      ExtendedIsTransitive(t0, t2, repository.rows);
      if posts == posts0 {
        LocalTracks(q, t2, OpBind(c.e, rec.value));
        q := Plus(q, OpBind(c.e, rec.value));
      }
    }

    lemma BindBinds(t: Table, e: EventId, rec: Record)
      requires Bind(t, e, rec).Ok?
      ensures e in t && e in Next(t, OpBind(e, rec)) && Next(t, OpBind(e, rec))[e].record == Some(rec)
      ensures !MayPost(Next(t, OpBind(e, rec))[e])
    {
    }

    // The bound record, or the one found by business key and bound on the way.
    method ResolveRecord(c: Call, ghost p: Play) returns (ok: bool, ghost q: Play)
      requires Sound(repository.rows) && c.e in repository.rows && Tracks(p, repository.rows)
      modifies repository
      ensures Advanced() && c.e in repository.rows
      ensures Tracks(q, repository.rows) && SamePlay(p, q) && q.post == p.post
      ensures ok <==> || old(repository.rows)[c.e].record.Some? || c.env.resolve.Missing?
                      || (c.env.resolve.Found? && Bindable(old(repository.rows), c.e, c.env.resolve.rec))
      ensures old(repository.rows)[c.e].record.Some? || c.env.resolve.Missing? ==>
                repository.rows == old(repository.rows)
      ensures ok && old(repository.rows)[c.e].record.None? && c.env.resolve.Found? ==>
                repository.rows[c.e].record == Some(c.env.resolve.rec)
    {
      hide Next, Sound, Extended, Tracks, Bindable, Bind, MayPost;
      ExtendedIsReflexive(repository.rows);
      q := p;
      if repository.rows[c.e].record.Some? { return true, p; }
      if c.env.resolve.Broken? { return false, p; }
      if c.env.resolve.Missing? { return true, p; }
      ghost var t := repository.rows;
      LocalTracks(p, t, OpBind(c.e, c.env.resolve.rec));
      q := Plus(p, OpBind(c.e, c.env.resolve.rec));
      ok := Perform(OpBind(c.e, c.env.resolve.rec));
      if ok { BindBinds(t, c.e, c.env.resolve.rec); }
    }

    // A repository operation that is none of the protocol's own, kept track of.
    method Note(op: Op, ghost p: Play) returns (ghost q: Play)
      requires Sound(repository.rows) && IsLocal(op) && Tracks(p, repository.rows)
      modifies repository
      ensures repository.rows == Next(old(repository.rows), op) && Advanced()
      ensures q == Plus(p, op) && Tracks(q, repository.rows)
    {
      hide Next, Sound, Extended, Tracks;
      LocalTracks(p, repository.rows, op);
      q := Plus(p, op);
      var ok := Perform(op);
    }

    // The remote write of an update or recovery, with its proof or its failure.
    method WriteEffect(c: Call, begin: Option<Patch>, end: Patch, ghost p: Play) returns (done: bool, ghost q: Play)
      requires Sound(repository.rows) && c.e in repository.rows && c.effect != "" && Tracks(p, repository.rows)
      modifies repository, this
      ensures Advanced() && writes == old(writes) + 1 && posts == old(posts)
      ensures done <==> c.env.write != WriteFailed
      ensures done ==> Proven(repository.rows, c.e, c.effect)
      ensures c.e in repository.rows
      ensures c.env.write == RecordDeleted ==>
                repository.rows[c.e].status == Closed && repository.rows[c.e].notes.missing
      ensures c.env.write == WriteFailed && !Proven(old(repository.rows), c.e, c.effect) ==>
                Marked(repository.rows, c.e, c.effect, Marker(MarkerFailed, c.at, ""))
      ensures c.env.write == Written ==>
                && (end.updatePending.Some? ==> repository.rows[c.e].notes.updatePending == end.updatePending.value)
                && (end.recoveryPending.Some? ==> repository.rows[c.e].notes.recoveryPending == end.recoveryPending)
      ensures Tracks(q, repository.rows) && SamePlay(p, q) && q.post == p.post
    {
      hide Next, Sound, Extended, Tracks;
      ghost var t0 := repository.rows;
      q := p;
      ExtendedIsReflexive(t0);
      if begin.Some? { q := Note(OpPatch(c.e, begin.value), q); }
      ghost var t1 := repository.rows;
      writes := writes + 1;
      done := c.env.write != WriteFailed;
      if begin.Some? { PatchShows(t0, c.e, begin.value); }
      if c.env.write == RecordDeleted {
        q := Note(OpMissing(c.e, c.at), q);
        MissingShows(t1, c.e, c.at);
      }
      else { ExtendedIsReflexive(t1); }
      ghost var t2 := repository.rows;
      ExtendedIsTransitive(t0, t1, t2);
      RowsRemain(t0, t2, c.e);
      q := Note(OpEffect(c.e, c.effect, Marker(if done then MarkerSucceeded else MarkerFailed, c.at, "")), q);
      ghost var t3 := repository.rows;
      EffectShows(t2, c.e, c.effect, Marker(if done then MarkerSucceeded else MarkerFailed, c.at, ""));
      if done { SuccessIsProof(t2, c.e, c.effect, c.at, ""); }
      ExtendedIsTransitive(t0, t2, t3);
      if c.env.write == Written {
        q := Note(OpPatch(c.e, end), q);
        PatchShows(t3, c.e, end);
        ExtendedIsTransitive(t0, t3, repository.rows);
        ProofIsKept(t3, repository.rows, c.e, c.effect);
      }
    }

    lemma PatchShows(t: Table, e: EventId, p: Patch)
      requires e in t
      ensures e in Next(t, OpPatch(e, p)) && Next(t, OpPatch(e, p))[e].effects == t[e].effects
      ensures var n := Next(t, OpPatch(e, p))[e].notes;
              && (p.updatePending.Some? ==> n.updatePending == p.updatePending.value)
              && (p.recoveryPending.Some? ==> n.recoveryPending == p.recoveryPending)
    {
    }

    lemma MissingShows(t: Table, e: EventId, at: int)
      requires e in t
      ensures e in Next(t, OpMissing(e, at))
      ensures var v := Next(t, OpMissing(e, at))[e];
              v.status == Closed && v.notes.missing && v.effects == t[e].effects
    {
    }

    lemma EffectShows(t: Table, e: EventId, effect: string, m: Marker)
      requires e in t && effect != ""
      ensures e in Next(t, OpEffect(e, effect, m)) && Next(t, OpEffect(e, effect, m))[e].notes == t[e].notes
      ensures Next(t, OpEffect(e, effect, m))[e].status == t[e].status
      ensures !Proven(t, e, effect) ==> Marked(Next(t, OpEffect(e, effect, m)), e, effect, m)
    {
    }

    /** Handles one external action.  A proven effect is never repeated; a normal
        return of an update or recovery is proof; a normal return of a create is
        a binding; at most one POST is made, only while one is allowed; and the
        whole call is a legal sequence of acts of the create protocol. */
    method HandleAlarmAction(c: Call, ghost p: Play) returns (done: bool, ghost q: Play)
      requires Sound(repository.rows) && c.effect != "" && Tracks(p, repository.rows) && Unsent(p)
      modifies repository, this
      ensures Advanced()
      ensures old(writes) <= writes && old(posts) <= posts <= old(posts) + 1
      ensures c.kind != CreateAction && Proven(old(repository.rows), c.e, c.effect) ==>
                repository.rows == old(repository.rows) && writes == old(writes) && posts == old(posts)
      ensures !Addressed(c, old(repository.rows)) || Bound(c, old(repository.rows)) ==>
                repository.rows == old(repository.rows) && writes == old(writes) && posts == old(posts)
      ensures c.kind != CreateAction && c.e in old(repository.rows) && Settled(c, old(repository.rows)) ==>
                writes == old(writes) && posts == old(posts)
      ensures done && c.kind != CreateAction ==> Proven(repository.rows, c.e, c.effect)
      ensures done <==> Finishes(c, old(repository.rows))
      ensures done && (c.kind == CreateAction || !Settled(c, old(repository.rows))) ==>
                && repository.rows[c.e].record.Some?
                && Secures(c, old(repository.rows), repository.rows[c.e].record.value)
      ensures done && c.kind != CreateAction && !Settled(c, old(repository.rows)) ==> writes > old(writes)
      ensures posts > old(posts) <==> MakesPost(c, old(repository.rows))
      ensures AsksForNewRow(c, old(repository.rows)) ==>
                done && posts == old(posts) + 1 && repository.rows[c.e].record == c.env.created.value
      ensures done && c.kind == CreateAction ==> c.e in repository.rows && repository.rows[c.e].record.Some?
      ensures posts > old(posts) ==> c.e in old(repository.rows) && MayPost(old(repository.rows)[c.e])
      ensures posts > old(posts) && MayPost(repository.rows[c.e]) ==> c.env.created == Err(NotPersisted)
      ensures Tracks(q, repository.rows) && SamePlay(p, q) && q.post == SentBy(c, p, posts > old(posts))
    {
      hide Next, Sound, Extended, MayPost, Tracks, Secures, CreatesRecord, CreatesRequest, AsksForNewRow;
      ghost var t0 := repository.rows;
      q := p;
      ExtendedIsReflexive(t0);
      if AsksForNewRow(c, t0) { NewRowIsSecured(c, t0); }
      if c.e !in repository.rows || repository.rows[c.e].device != c.device || !c.env.startMatches { return false, q; }
      var event := repository.rows[c.e];
      if c.kind == UpdateAction && event.record.None? && event.attempted && !c.env.reconciling { return false, q; }
      if c.kind == CreateAction {
        SecuredByCreate(c, t0);
        if event.record.Some? { return true, q; }
        done, q := CreateAndBind(c, q);
        RowsRemain(t0, repository.rows, c.e);
        return;
      }
      done, q := HandleEffect(c, q);
    }

    // An update or recovery of a known cycle: nothing if it is on record or no longer
    // asked for, else a marker, the record, and the write.
    method HandleEffect(c: Call, ghost p: Play) returns (done: bool, ghost q: Play)
      requires Sound(repository.rows) && c.effect != "" && Tracks(p, repository.rows) && Unsent(p)
      requires c.e in repository.rows && c.kind != CreateAction
      modifies repository, this
      ensures Advanced()
      ensures old(writes) <= writes && old(posts) <= posts <= old(posts) + 1
      ensures Proven(old(repository.rows), c.e, c.effect) ==>
                repository.rows == old(repository.rows) && writes == old(writes) && posts == old(posts)
      ensures Settled(c, old(repository.rows)) ==> writes == old(writes) && posts == old(posts)
      ensures done ==> Proven(repository.rows, c.e, c.effect)
      ensures done <==> || Settled(c, old(repository.rows))
                        || (c.env.write != WriteFailed && exists rec :: Secures(c, old(repository.rows), rec))
      ensures done && !Settled(c, old(repository.rows)) ==>
                && repository.rows[c.e].record.Some? && writes > old(writes)
                && Secures(c, old(repository.rows), repository.rows[c.e].record.value)
      ensures posts > old(posts) <==>
                && CreatesRequest(c, old(repository.rows)[c.e])
                && c.kind == UpdateAction && !Settled(c, old(repository.rows)) && c.env.resolve.Missing?
      ensures posts > old(posts) ==> MayPost(old(repository.rows)[c.e])
      ensures posts > old(posts) && MayPost(repository.rows[c.e]) ==> c.env.created == Err(NotPersisted)
      ensures Tracks(q, repository.rows) && SamePlay(p, q) && q.post == SentBy(c, p, posts > old(posts))
    {
      hide Next, Sound, Extended, MayPost, Tracks, Secures, CreatesRequest;
      ghost var t0 := repository.rows;
      q := p;
      ExtendedIsReflexive(t0);
      var event := repository.rows[c.e];
      if c.effect in event.effects && event.effects[c.effect].status == MarkerSucceeded { return true, q; }
      q := Note(OpEffect(c.e, c.effect, Marker(MarkerPending, c.at, "")), q);
      ghost var t1 := repository.rows;
      NoteKeepsPostState(t0, OpEffect(c.e, c.effect, Marker(MarkerPending, c.at, "")), c.e);
      EffectKeepsTheRest(t0, OpEffect(c.e, c.effect, Marker(MarkerPending, c.at, "")));
      forall rec ensures Secures(c, t0, rec) <==> Secures(c, t1, rec) { EffectsDoNotDecide(c, t0, t1, rec); }
      RequestByRow(c, t0[c.e], t1[c.e]);
      if event.notes.missing || event.supersededBy.Some? {
        q := Note(OpEffect(c.e, c.effect, Marker(MarkerSucceeded, c.at, "not ours any more")), q);
        SuccessIsProof(t1, c.e, c.effect, c.at, "not ours any more");
        ExtendedIsTransitive(t0, t1, repository.rows);
        return true, q;
      }
      done, q := PursueEffect(c, q);
      ExtendedIsTransitive(t0, t1, repository.rows);
      MayPostIsKept(t0[c.e], t1[c.e]);
    }

    // Resolve or create the record, then write to it.
    method PursueEffect(c: Call, ghost p: Play) returns (done: bool, ghost q: Play)
      requires Sound(repository.rows) && c.e in repository.rows && c.effect != "" && c.kind != CreateAction
      requires Tracks(p, repository.rows) && Unsent(p)
      modifies repository, this
      ensures Advanced()
      ensures old(writes) <= writes && old(posts) <= posts <= old(posts) + 1
      ensures done ==> Proven(repository.rows, c.e, c.effect) && writes > old(writes)
      ensures done <==> c.env.write != WriteFailed && exists rec :: Secures(c, old(repository.rows), rec)
      ensures done ==> && repository.rows[c.e].record.Some?
                       && Secures(c, old(repository.rows), repository.rows[c.e].record.value)
      ensures posts > old(posts) <==>
                && c.kind == UpdateAction && c.env.resolve.Missing?
                && CreatesRequest(c, old(repository.rows)[c.e])
      ensures posts > old(posts) ==> MayPost(old(repository.rows)[c.e])
      ensures posts > old(posts) && MayPost(repository.rows[c.e]) ==> c.env.created == Err(NotPersisted)
      ensures Tracks(q, repository.rows) && SamePlay(p, q) && q.post == SentBy(c, p, posts > old(posts))
    {
      hide Next, Sound, Extended, MayPost, Tracks, Bindable, CreatesRecord, CreatesRequest;
      ghost var t0 := repository.rows;
      forall rec | CreatesRecord(c, t0, rec) ensures t0[c.e].record.None? { RecordIsNew(c, t0, rec); }
      if CreatesRequest(c, t0[c.e]) { RequestIsNew(c, t0[c.e]); }
      done, q := ResolveRecord(c, p);
      ghost var t1 := repository.rows;
      if !done { return; }
      if repository.rows[c.e].record.None? {
        if c.kind == RecoverAction { return false, q; }
        done, q := CreateAndBind(c, q);
        if !done { return; }
      } else {
        ExtendedIsReflexive(t1);
      }
      ghost var t2 := repository.rows;
      ExtendedIsTransitive(t0, t1, t2);
      RowsRemain(t0, t2, c.e);
      assert Secures(c, t0, t2[c.e].record.value);
      if c.kind == UpdateAction {
        done, q := WriteEffect(c, Some(Patch(false, None, None, Some(true))), Patch(false, None, None, Some(false)), q);
      } else {
        done, q := WriteEffect(c, None, Patch(false, Some(false), None, None), q);
      }
      ExtendedIsTransitive(t0, t2, repository.rows);
      BoundIsClosed(t2, repository.rows, c.e);
    }

    lemma BoundIsClosed(t: Table, u: Table, e: EventId)
      requires e in t && t[e].record.Some? && Extended(t, u)
      ensures e in u && !MayPost(u[e]) && u[e].record == t[e].record
    {
    }

    // What other parties do to the table between two calls.
    method Interfere(ops: seq<Op>)
      requires Sound(repository.rows)
      modifies repository
      ensures Advanced() && repository.rows == Interfered(old(repository.rows), ops)
    {
      hide Sound, Extended, Enabled, Next;
      ghost var t0 := repository.rows;
      ExtendedIsReflexive(t0);
      var i := 0;
      while i < |ops|
        invariant 0 <= i <= |ops| && Sound(repository.rows) && Extended(t0, repository.rows)
        invariant repository.rows == Interfered(t0, ops[..i])
      {
        assert ops[..i + 1][..i] == ops[..i];
        if Enabled(repository.rows, ops[i]) {
          ghost var t := repository.rows;
          StepExtends(t, ops[i]);
          repository.rows := Next(repository.rows, ops[i]);
          ExtendedIsTransitive(t0, t, repository.rows);
        }
        i := i + 1;
      }
      assert ops[..|ops|] == ops;
    }

    ghost function Interfered(t: Table, ops: seq<Op>): Table {
      if ops == [] then t
      else
        var u, op := Interfered(t, ops[..|ops| - 1]), ops[|ops| - 1];
        if Enabled(u, op) then Next(u, op) else u
    }

    /** Over any sequence of calls and interference: after one normal return of an
        update or recovery, no later call for the same effect writes remotely; and each
        call returns normally exactly when the table it finds lets it. */
    method Replay(calls: seq<(Call, seq<Op>)>) returns (log: seq<(bool, nat)>, ghost tables: seq<Table>)
      requires Sound(repository.rows) && forall i :: 0 <= i < |calls| ==> calls[i].0.effect != ""
      modifies repository, this
      ensures |log| == |calls|
      ensures forall i, j :: 0 <= i < j < |calls| && log[i].0 && SameEffect(calls[i].0, calls[j].0) ==> log[j].1 == 0
      ensures |tables| == |calls| + 1 && tables[0] == old(repository.rows) && tables[|calls|] == repository.rows
      ensures forall i :: 0 <= i < |calls| ==>
                (log[i].0 <==> Finishes(calls[i].0, Interfered(tables[i], calls[i].1)))
    {
      hide Sound, Extended, Grows, Enabled, Next, Tracks;
      hide Secures, Addressed, Settled, CreatesRequest, AsksForNewRow, MayPost, MakesPost, Finishes, Interfered;
      log, tables := [], [repository.rows];
      while |log| < |calls|
        invariant |log| <= |calls| && Sound(repository.rows)
        invariant AllProven(log, calls, repository.rows)
        invariant forall i, j :: 0 <= i < j < |log| && log[i].0 && SameEffect(calls[i].0, calls[j].0) ==> log[j].1 == 0
        invariant |tables| == |log| + 1 && tables[0] == old(repository.rows) && tables[|log|] == repository.rows
        invariant forall i :: 0 <= i < |log| ==>
                    (log[i].0 <==> Finishes(calls[i].0, Interfered(tables[i], calls[i].1)))
      {
        var (c, others) := calls[|log|];
        ghost var t0 := repository.rows;
        Interfere(others);
        ghost var t1 := repository.rows;
        var before := writes;
        ghost var p := Play(World(t1, map[], map[]), Role(0, 0, false), [], None);
        NewPlayTracks(p);
        ghost var q;
        var done;
        done, q := HandleAlarmAction(c, p);
        ProofsAreKept(log, calls, t0, t1);
        ProofsAreKept(log, calls, t1, repository.rows);
        log := log + [(done, writes - before)];
        tables := tables + [repository.rows];
      }
    }

    // Every update and recovery that returned normally is on record.
    ghost predicate AllProven(log: seq<(bool, nat)>, calls: seq<(Call, seq<Op>)>, t: Table)
      requires |log| <= |calls|
    {
      forall i :: 0 <= i < |log| && log[i].0 && calls[i].0.kind != CreateAction ==>
        Proven(t, calls[i].0.e, calls[i].0.effect)
    }

    lemma ProofsAreKept(log: seq<(bool, nat)>, calls: seq<(Call, seq<Op>)>, t: Table, u: Table)
      requires |log| <= |calls| && AllProven(log, calls, t) && Extended(t, u)
      ensures AllProven(log, calls, u)
    {
      hide Extended, Proven;
      forall i | 0 <= i < |log| && log[i].0 && calls[i].0.kind != CreateAction
        ensures Proven(u, calls[i].0.e, calls[i].0.effect)
      {
        ProofIsKept(t, u, calls[i].0.e, calls[i].0.effect);
      }
    }

    predicate SameEffect(a: Call, b: Call) {
      a.kind != CreateAction && b.kind != CreateAction && a.e == b.e && a.effect == b.effect
    }

    /** Any number of calls by this writer, with acts of any other workers and late
        executions in between: of all requests sent for one event at most one made a
        remote row or still may, and a call sends one exactly when the table it finds
        asks for it. */
    method Serve(turns: seq<Turn>) returns (s: World, made: seq<Option<RequestId>>, ghost worlds: seq<World>)
      requires Sound(repository.rows) && forall i :: 0 <= i < |turns| ==> turns[i].c.effect != ""
      modifies repository, this
      ensures Sound(repository.rows) && s.table == repository.rows && forall e :: SingleRow(s, e)
      ensures |made| == |turns| && posts == old(posts) + Count(made)
      ensures forall i :: 0 <= i < |made| && made[i].Some? ==> SentFor(s, made[i].value, turns[i].c.e)
      ensures forall i, j :: 0 <= i < j < |made| && made[i].Some? ==> made[i] != made[j]
      ensures |worlds| == |turns| + 1 && worlds[0] == World(old(repository.rows), map[], map[])
      ensures worlds[|turns|] == s
      ensures forall i :: 0 <= i < |turns| ==>
                (made[i].Some? <==> MakesPost(turns[i].c, Played(worlds[i], turns[i].others).table))
    {
      hide Sound, Extended, SingleRow, Inv, MakesPost, Played;
      s, made := World(repository.rows, map[], map[]), [];
      worlds := [s];
      NobodyIsFine(repository.rows);
      while |made| < |turns|
        invariant |made| <= |turns| && posts == old(posts) + Count(made)
        invariant Sound(repository.rows) && s.table == repository.rows && Inv(s) && StageOf(s, SELF) == Idle
        invariant forall i :: 0 <= i < |made| && made[i].Some? ==> SentFor(s, made[i].value, turns[i].c.e)
        invariant forall i, j :: 0 <= i < j < |made| && made[i].Some? ==> made[i] != made[j]
        invariant |worlds| == |made| + 1 && worlds[0] == World(old(repository.rows), map[], map[])
        invariant worlds[|made|] == s
        invariant forall i :: 0 <= i < |made| ==>
                    (made[i].Some? <==> MakesPost(turns[i].c, Played(worlds[i], turns[i].others).table))
      {
        var sent;
        s, sent := TakeTurn(turns[|made|], s);
        made := made + [sent];
        worlds := worlds + [s];
        assert made[..|made| - 1] + [made[|made| - 1]] == made;
      }
      forall e ensures SingleRow(s, e) { InvMeansSingleRow(s, e); }
    }

    // One turn: what others do, then the call, with a request id of its own.
    method TakeTurn(turn: Turn, s: World) returns (u: World, sent: Option<RequestId>)
      requires Sound(repository.rows) && turn.c.effect != ""
      requires s.table == repository.rows && Inv(s) && StageOf(s, SELF) == Idle
      modifies repository, this
      ensures Sound(repository.rows) && u.table == repository.rows && Inv(u) && StageOf(u, SELF) == Idle
      ensures posts == old(posts) + if sent.Some? then 1 else 0
      ensures sent.Some? ==> sent.value !in s.posts && SentFor(u, sent.value, turn.c.e)
      ensures sent.Some? <==> MakesPost(turn.c, Played(s, turn.others).table)
      ensures PostsStay(s, u)
    {
      hide Sound, Extended, Tracks, Next, Inv;
      hide Secures, Addressed, Settled, CreatesRequest, AsksForNewRow, MayPost, FateOf, MakesPost, Finishes, Played;
      u := OthersAct(s, turn.others);
      repository.rows := u.table;
      var before := posts;
      var r := NewRequest(u.posts);
      ghost var p := Play(u, Role(SELF, r, turn.executes), [], None);
      NewPlayTracks(p);
      ghost var q;
      var done;
      done, q := HandleAlarmAction(turn.c, p);
      sent := if posts > before then Some(r) else None;
      var fate := FateOf(turn.c.env.created, turn.executes);
      u := World(repository.rows, u.workers, if posts > before then u.posts[r := Post(turn.c.e, fate)] else u.posts);
      PlayKeepsInv(p, q, u);
    }

    // What other workers and the remote side do, act by act; what is not allowed is not done.
    method OthersAct(s: World, acts: seq<Act>) returns (u: World)
      requires Sound(s.table) && Inv(s) && StageOf(s, SELF) == Idle
      ensures Sound(u.table) && Inv(u) && StageOf(u, SELF) == Idle && PostsStay(s, u)
      ensures u == Played(s, acts)
    {
      hide Sound, Inv, Do, Allowed;
      u := s;
      for n := 0 to |acts|
        invariant Sound(u.table) && Inv(u) && StageOf(u, SELF) == Idle && PostsStay(s, u)
        invariant u == Played(s, acts[..n])
      {
        assert acts[..n + 1][..n] == acts[..n];
        if !ActsFor(acts[n], SELF) && Allowed(u, acts[n]) {
          ActKeepsInv(u, acts[n]);
          ActKeepsSound(u, acts[n]);
          u := Do(u, acts[n]);
        }
      }
      assert acts[..|acts|] == acts;
    }

    // A request id not in use.
    method NewRequest(posts: map<RequestId, Post>) returns (r: RequestId)
      ensures r !in posts
    {
      r := 0;
      var rest := posts.Keys;
      while r in rest
        invariant forall q :: q in posts ==> q in rest || q < r
        decreases rest
      {
        rest := rest - {r};
        r := r + 1;
      }
    }
  }

  const SELF: Worker := 0

  // One call of the writer, whether the remote side executes its request when the
  // answer leaves that open, and what others do before it.
  datatype Turn = Turn(c: Call, executes: bool, others: seq<Act>)

  // The world after what others do; what is not allowed is not done.
  ghost function Played(s: World, acts: seq<Act>): World {
    if acts == [] then s
    else
      var u, a := Played(s, acts[..|acts| - 1]), acts[|acts| - 1];
      if !ActsFor(a, SELF) && Allowed(u, a) then Do(u, a) else u
  }

  function Count(made: seq<Option<RequestId>>): nat {
    if made == [] then 0 else Count(made[..|made| - 1]) + if made[|made| - 1].Some? then 1 else 0
  }

  predicate SentFor(s: World, r: RequestId, e: EventId) { r in s.posts && s.posts[r].event == e }

  ghost predicate PostsStay(s: World, u: World) {
    forall r :: r in s.posts ==> r in u.posts && u.posts[r].event == s.posts[r].event
  }

  predicate ActsFor(a: Act, w: Worker) { !a.Execute? && !a.Local? && a.w == w }

  lemma NobodyIsFine(t: Table)
    ensures Inv(World(t, map[], map[]))
  {
  }

  // Others' acts change the table like repository operations, and drop no request.
  lemma ActKeepsSound(s: World, a: Act)
    requires Sound(s.table) && Allowed(s, a) && !ActsFor(a, SELF) && StageOf(s, SELF) == Idle
    ensures Sound(Do(s, a).table) && StageOf(Do(s, a), SELF) == Idle && PostsStay(s, Do(s, a))
  {
    hide Sound, Bind, MarkOutcome, ReservePost, Next;
    match a
    case Reserve(w, e) => ReserveIsStep(s.table, e);
    case Report(w, error) =>
      var st := StageOf(s, w);
      OutcomeIsStep(s.table, st.event, CreateFailureOutcome(st.failure), error);
    case FinishBind(w, rec) => BindIsStep(s.table, StageOf(s, w).event, rec);
    case Local(op) => StepExtends(s.table, op);
    case _ =>
  }

  // What the protocol's own acts do to the table are repository operations.
  lemma ActsAreOps(t: Table, e: EventId, o: Outcome, error: Option<string>, rec: Record)
    ensures ReservePost(t, e).Ok? ==> ReservePost(t, e).value.0 == Next(t, OpReserve(e))
    ensures OrSame(MarkOutcome(t, e, o, error), t) == Next(t, OpOutcome(e, o, error))
    ensures OrSame(Bind(t, e, rec), t) == Next(t, OpBind(e, rec))
  {
    hide Bind, MarkOutcome;
  }

  lemma ReserveIsStep(t: Table, e: EventId)
    requires Sound(t)
    ensures ReservePost(t, e).Ok? ==> Sound(ReservePost(t, e).value.0)
  {
    ActsAreOps(t, e, Retryable, None, "");
    hide Sound, Next, ReservePost;
    StepExtends(t, OpReserve(e));
  }

  lemma OutcomeIsStep(t: Table, e: EventId, o: Outcome, error: Option<string>)
    requires Sound(t)
    ensures Sound(OrSame(MarkOutcome(t, e, o, error), t))
  {
    ActsAreOps(t, e, o, error, "");
    hide Sound, Next, MarkOutcome;
    StepExtends(t, OpOutcome(e, o, error));
  }

  lemma BindIsStep(t: Table, e: EventId, rec: Record)
    requires Sound(t)
    ensures Sound(OrSame(Bind(t, e, rec), t))
  {
    ActsAreOps(t, e, Retryable, None, rec);
    hide Sound, Next, Bind;
    StepExtends(t, OpBind(e, rec));
  }

  // After a call the world is what its acts lead to, as far as anyone can tell.
  lemma PlayKeepsInv(p: Play, q: Play, s: World)
    requires Inv(p.start) && Tracks(q, s.table) && SamePlay(p, q) && StageOf(p.start, p.role.worker) == Idle
    requires s.workers == p.start.workers
    requires s.posts == if q.post.Some? then p.start.posts[p.role.request := q.post.value] else p.start.posts
    ensures Inv(s)
  {
    LegalKeepsInv(q.start, q.acts);
    var u := Final(q.start, q.acts);
    assert forall v :: StageOf(s, v) == StageOf(u, v);
    StagesDecideInv(u, s);
  }

  lemma StagesDecideInv(u: World, s: World)
    requires Inv(u) && s.table == u.table && s.posts == u.posts && forall v :: StageOf(s, v) == StageOf(u, v)
    ensures Inv(s)
  {
    assert forall w, e :: Holds(s, w, e) == Holds(u, w, e);
    assert forall r, e :: Live(s, r, e) == Live(u, r, e);
    assert forall w :: StageOk(u, w) ==> StageOk(s, w);
  }
}
