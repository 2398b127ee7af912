/**
 The local table of environment events: one monitoring cycle per row, its
 binding to a remote record, the state of its remote CREATE, and the durable
 markers of its other external effects.
 */
module EventStore {
  import opened Base

  type EventId = nat
  type Record = string

  datatype Status = Open | InProgress | Closed

  datatype Outcome = InFlight | Retryable | Uncertain | NotRetryable | Done

  datatype MarkerStatus = MarkerPending | MarkerSucceeded | MarkerFailed

  datatype Marker = Marker(status: MarkerStatus, at: int, note: string)

  // event_key "ENV:<device>:<violation start>".
  datatype EventKey = EventKey(device: string, start: int)

  // Payload entries and lease columns that no identity or ownership rule reads.
  datatype Notes = Notes(
    attempts: nat, lastError: Option<string>, bindingPending: bool, requestedAt: Option<int>,
    recoveryPending: Option<bool>, recoveredAt: Option<int>, updatePending: bool, missing: bool,
    owner: Option<string>, leaseUntil: Option<int>)
  {
    function Unleased(): Notes { this.(owner := None, leaseUntil := None) }
  }

  datatype Event = Event(
    device: string, key: EventKey, status: Status, openedAt: int, closedAt: Option<int>,
    record: Option<Record>, supersededBy: Option<EventId>, attempted: bool,
    createState: Option<Outcome>, effects: map<string, Marker>, notes: Notes)

  type Table = map<EventId, Event>

  datatype Error = KeyError | ValueError

  function NewEvent(device: string, key: EventKey, openedAt: int): Event {
    Event(device, key, Open, openedAt, None, None, None, false, None, map[],
          Notes(0, None, false, None, None, None, false, false, None, None))
  }

  predicate HasKey(t: Table, e: EventId, key: EventKey) { e in t && t[e].key == key }

  predicate IsActive(t: Table, e: EventId, device: string) {
    e in t && t[e].device == device && t[e].status != Closed
  }

  // ------------------------------------------------------- specification

  // Which row the call returns: the owner of the key, else the device's active
  // row, else the new one.
  predicate IsReused(t: Table, device: string, key: EventKey, e: Option<EventId>) {
    match e
    case Some(x) => HasKey(t, x, key) || ((forall y :: y in t ==> !HasKey(t, y, key)) && IsActive(t, x, device))
    case None => forall y :: y in t ==> !HasKey(t, y, key) && !IsActive(t, y, device)
  }

  function CreateActive(t: Table, e: Option<EventId>, newId: EventId, device: string, key: EventKey, at: int): Table {
    if e.Some? then t else t[newId := NewEvent(device, key, at)]
  }

  function Close(t: Table, e: EventId, at: int): Result<Table, Error> {
    if e !in t then Err(KeyError)
    else if t[e].status == Closed then Ok(t)
    else Ok(t[e := t[e].(status := Closed, closedAt := Some(at))])
  }

  function MarkMissing(t: Table, e: EventId, at: int): Result<Table, Error> {
    if e !in t then Err(KeyError)
    else Ok(t[e := t[e].(
      status := Closed, closedAt := Some(t[e].closedAt.GetOr(at)),
      notes := t[e].notes.(missing := true, bindingPending := false, updatePending := false,
                           recoveryPending := Some(false)))])
  }

  // The projection entries that callers merge into a row.
  datatype Patch = Patch(
    attempted: bool, recoveryPending: Option<bool>, recoveredAt: Option<int>, updatePending: Option<bool>)

  function PatchProjection(t: Table, e: EventId, p: Patch): Result<Table, Error> {
    if e !in t then Err(KeyError)
    else
      var n := t[e].notes;
      Ok(t[e := t[e].(attempted := t[e].attempted || p.attempted, notes := n.(
        recoveryPending := if p.recoveryPending.Some? then p.recoveryPending else n.recoveryPending,
        recoveredAt := if p.recoveredAt.Some? then p.recoveredAt else n.recoveredAt,
        updatePending := p.updatePending.GetOr(n.updatePending)))])
  }

  // A POST is open when none was tried or the last one is known to be void.
  predicate MayPost(v: Event) {
    v.record.None? && (v.attempted ==> v.createState == Some(Retryable))
  }

  function ReservePost(t: Table, e: EventId): Result<(Table, bool), Error> {
    if e !in t then Err(KeyError)
    else if !MayPost(t[e]) then Ok((t, false))
    else Ok((t[e := t[e].(attempted := true, createState := Some(InFlight),
                          notes := t[e].notes.(attempts := t[e].notes.attempts + 1))], true))
  }

  function MarkOutcome(t: Table, e: EventId, o: Outcome, error: Option<string>): Result<Table, Error> {
    if e !in t then Err(KeyError)
    else Ok(t[e := t[e].(createState := Some(o), notes := t[e].notes.Unleased().(lastError := error))])
  }

  predicate Obstructs(t: Table, e: EventId, rec: Record, o: EventId)
    requires e in t
  {
    && o in t && o != e && t[o].record == Some(rec)
    && (t[o].device != t[e].device || t[o].status != Closed || t[o].openedAt >= t[e].openedAt)
  }

  predicate BindRefused(t: Table, e: EventId, rec: Record)
    requires e in t
  {
    || (t[e].record.Some? && t[e].record.value != rec)
    || exists o :: o in t && Obstructs(t, e, rec, o)
  }

  function Handed(v: Event, e: EventId): Event {
    v.(supersededBy := Some(e), notes := v.notes.(recoveryPending := Some(false), updatePending := false))
  }

  // A visited row of the record is handed over, every other row is left alone.
  function Turned(v: Event, e: EventId, rec: Record, visited: bool): Event {
    if visited && v.record == Some(rec) then Handed(v, e) else v
  }

  function BoundNotes(n: Notes, closedAt: Option<int>): Notes {
    var b := n.Unleased().(bindingPending := false, lastError := None);
    if closedAt.None? then b
    else b.(recoveredAt := Some(n.recoveredAt.GetOr(closedAt.value)),
            recoveryPending := Some(n.recoveryPending.GetOr(true)))
  }

  function BoundTo(v: Event, rec: Record): Event {
    v.(record := Some(rec), createState := Some(Done), notes := BoundNotes(v.notes, v.closedAt))
  }

  function BoundTable(t: Table, e: EventId, rec: Record): Table {
    map o | o in t ::
      if o == e then BoundTo(t[o], rec) else Turned(t[o], e, rec, true)
  }

  function Bind(t: Table, e: EventId, rec: Record): Result<Table, Error> {
    if rec == "" then Err(ValueError)
    else if e !in t then Err(KeyError)
    else if BindRefused(t, e, rec) then Err(ValueError)
    else Ok(BoundTable(t, e, rec))
  }

  predicate Proven(t: Table, e: EventId, key: string) {
    e in t && key in t[e].effects && t[e].effects[key].status == MarkerSucceeded
  }

  function PatchEffect(t: Table, e: EventId, key: string, m: Marker): Result<Table, Error> {
    if key == "" then Err(ValueError)
    else if e !in t then Err(KeyError)
    else if Proven(t, e, key) then Ok(t)
    else Ok(t[e := t[e].(effects := t[e].effects[key := m])])
  }

  function MarkBindingPending(t: Table, e: EventId, at: int): Result<Table, Error> {
    if e !in t then Err(KeyError)
    else if t[e].record.Some? then Ok(t)
    else Ok(t[e := t[e].(notes := t[e].notes.(
      bindingPending := true, requestedAt := Some(t[e].notes.requestedAt.GetOr(at))))])
  }

  function ClaimCreate(t: Table, e: EventId, owner: string, at: int, lease: int): Result<(Table, bool), Error> {
    if owner == "" then Err(ValueError)
    else if e !in t then Err(KeyError)
    else
      var n := t[e].notes;
      if n.owner.None? || n.leaseUntil.None? || n.leaseUntil.value <= at
      then Ok((t[e := t[e].(notes := n.(owner := Some(owner), leaseUntil := Some(at + Max(1, lease))))], true))
      else Ok((t, false))
  }

  lemma BindByParts(t: Table, t': Table, e: EventId, rec: Record)
    requires e in t && t'.Keys == t.Keys && t'[e] == BoundTo(t[e], rec)
    requires forall o :: o in t && o != e ==> t'[o] == Turned(t[o], e, rec, true)
    ensures t' == BoundTable(t, e, rec)
  {
  }

  // u is t with at most row e changed.
  ghost predicate OnlyRow(t: Table, u: Table, e: EventId) {
    e in t && u.Keys == t.Keys && forall o :: o in t && o != e ==> u[o] == t[o]
  }

  // Every other cycle of the record has ended, on the same device, after opening earlier.
  ghost predicate Inherits(t: Table, e: EventId, rec: Record)
    requires e in t
  {
    forall o :: o in t && o != e && t[o].record == Some(rec) ==>
      t[o].device == t[e].device && t[o].status == Closed && t[o].openedAt < t[e].openedAt
  }

  // Whether cycle e can be bound to rec.
  ghost predicate Bindable(t: Table, e: EventId, rec: Record) {
    rec != "" && e in t && (t[e].record.None? || t[e].record == Some(rec)) && Inherits(t, e, rec)
  }

  // The rows after a binding, by columns.
  ghost predicate BoundInColumns(t: Table, u: Table, e: EventId, rec: Record)
    requires e in t
  {
    && u.Keys == t.Keys
    && u[e] == t[e].(record := Some(rec), createState := Some(Done), notes := u[e].notes)
    && !u[e].notes.bindingPending && u[e].notes.owner.None? && u[e].notes.leaseUntil.None?
    && (t[e].closedAt.Some? && t[e].notes.recoveredAt.None? ==> u[e].notes.recoveredAt == t[e].closedAt)
    && (t[e].closedAt.Some? && t[e].notes.recoveryPending.None? ==> u[e].notes.recoveryPending == Some(true))
    && (forall o :: o in t && o != e && t[o].record != Some(rec) ==> u[o] == t[o])
    && forall o :: o in t && o != e && t[o].record == Some(rec) ==>
         && u[o] == t[o].(supersededBy := Some(e), notes := u[o].notes)
         && u[o].notes.recoveryPending == Some(false) && !u[o].notes.updatePending
  }

  /** A binding is refused exactly when it would take a record from another device,
      from a cycle still going on or from one that did not open earlier, or would
      change a binding; what it does to every row is given column by column. */
  lemma BindsExactly(t: Table, e: EventId, rec: Record)
    ensures Bind(t, e, rec).Ok? <==> Bindable(t, e, rec)
    ensures Bind(t, e, rec).Ok? ==> BoundInColumns(t, Bind(t, e, rec).value, e, rec)
  {
    if e in t && Inherits(t, e, rec) { assert forall o :: o in t ==> !Obstructs(t, e, rec, o); }
    if e in t && !BindRefused(t, e, rec) { assert forall o :: o in t ==> !Obstructs(t, e, rec, o); }
  }

  // ------------------------------------------------------- the repository

  class EventRepository {
    var rows: Table

    constructor ()
      ensures rows == map[]
    {
      rows := map[];
    }

    method FindByKey(key: EventKey) returns (e: Option<EventId>)
      ensures e.Some? ==> HasKey(rows, e.value, key)
      ensures e.None? ==> forall y :: !HasKey(rows, y, key)
    {
      e := None;
      var todo := rows.Keys;
      while todo != {}
        invariant todo <= rows.Keys
        invariant forall y :: HasKey(rows, y, key) ==> y in todo
        decreases todo
      {
        var y :| y in todo;
        if rows[y].key == key { return Some(y); }
        todo := todo - {y};
      }
    }

    method FindActive(device: string) returns (e: Option<EventId>)
      ensures e.Some? ==> IsActive(rows, e.value, device)
      ensures e.None? ==> forall y :: !IsActive(rows, y, device)
    {
      e := None;
      var todo := rows.Keys;
      while todo != {}
        invariant todo <= rows.Keys
        invariant forall y :: IsActive(rows, y, device) ==> y in todo
        decreases todo
      {
        var y :| y in todo;
        if rows[y].device == device && rows[y].status != Closed { return Some(y); }
        todo := todo - {y};
      }
    }

    method CreateOrGetActive(newId: EventId, device: string, key: EventKey, at: int)
      returns (r: Result<EventId, Error>, ghost reused: Option<EventId>)
      requires newId !in rows
      modifies this
      ensures device == "" <==> r == Err(ValueError)
      ensures r.Err? ==> r.error == ValueError && rows == old(rows)
      ensures r.Ok? && r.value in old(rows) ==>
                && rows == old(rows)
                && (old(rows)[r.value].key == key
                    || (old(rows)[r.value].device == device && old(rows)[r.value].status != Closed
                        && forall o :: o in old(rows) ==> old(rows)[o].key != key))
      ensures r.Ok? && r.value !in old(rows) ==>
                && (forall o :: o in old(rows) ==>
                     && old(rows)[o].key != key
                     && (old(rows)[o].device == device ==> old(rows)[o].status == Closed))
                && r.value == newId && rows.Keys == old(rows).Keys + {newId}
                && (forall o :: o in old(rows) ==> rows[o] == old(rows)[o])
                && rows[newId].device == device && rows[newId].key == key && rows[newId].status == Open
                && rows[newId].openedAt == at && rows[newId].record.None? && !rows[newId].attempted
      ensures r.Ok? ==> && IsReused(old(rows), device, key, reused)
                        && rows == CreateActive(old(rows), reused, newId, device, key, at)
                        && r.value == reused.GetOr(newId)
    {
      reused := None;
      if device == "" { return Err(ValueError), None; }
      var existing := FindByKey(key);
      if existing.None? {
        forall o | o in rows ensures rows[o].key != key { assert !HasKey(rows, o, key); }
        existing := FindActive(device);
        forall o | existing.None? && o in rows && rows[o].device == device ensures rows[o].status == Closed {
          assert !IsActive(rows, o, device);
        }
      }
      reused := existing;
      if existing.Some? { return Ok(existing.value), reused; }
      rows := rows[newId := NewEvent(device, key, at)];
      r := Ok(newId);
    }

    method CloseEvent(e: EventId, at: int) returns (r: Result<(), Error>)
      modifies this
      ensures Did(r, old(rows), Close(old(rows), e, at))
      ensures r.Ok? <==> e in old(rows)
      ensures r.Ok? ==>
                && OnlyRow(old(rows), rows, e) && rows[e].status == Closed
                && rows[e].closedAt == (if old(rows)[e].status == Closed then old(rows)[e].closedAt else Some(at))
                && rows[e] == old(rows)[e].(status := Closed, closedAt := rows[e].closedAt)
    {
      if e in rows && rows[e].status != Closed {
        rows := rows[e := rows[e].(status := Closed, closedAt := Some(at))];
        return Ok(());
      }
      r := if e in rows then Ok(()) else Err(KeyError);
    }

    method MarkExternalRecordMissing(e: EventId, at: int) returns (r: Result<(), Error>)
      modifies this
      ensures Did(r, old(rows), MarkMissing(old(rows), e, at))
      ensures r.Ok? <==> e in old(rows)
      ensures r.Ok? ==>
                && OnlyRow(old(rows), rows, e) && rows[e].status == Closed
                && rows[e].closedAt == (if old(rows)[e].closedAt.Some? then old(rows)[e].closedAt else Some(at))
                && rows[e].notes.missing && rows[e].notes.recoveryPending == Some(false)
                && !rows[e].notes.bindingPending && !rows[e].notes.updatePending
                && rows[e] == old(rows)[e].(status := Closed, closedAt := rows[e].closedAt, notes := rows[e].notes)
    {
      if e !in rows { return Err(KeyError); }
      var v := rows[e];
      v := v.(notes := v.notes.(missing := true, bindingPending := false, updatePending := false,
                                recoveryPending := Some(false)));
      if v.closedAt.None? { v := v.(closedAt := Some(at)); }
      rows := rows[e := v.(status := Closed)];
      r := Ok(());
    }

    method PatchExternalProjection(e: EventId, p: Patch) returns (r: Result<(), Error>)
      modifies this
      ensures Did(r, old(rows), PatchProjection(old(rows), e, p))
      ensures r.Ok? <==> e in old(rows)
      ensures r.Ok? ==>
                && OnlyRow(old(rows), rows, e) && rows[e].attempted == (old(rows)[e].attempted || p.attempted)
                && rows[e] == old(rows)[e].(attempted := rows[e].attempted, notes := rows[e].notes)
                && (p.recoveryPending.Some? ==> rows[e].notes.recoveryPending == p.recoveryPending)
                && (p.recoveredAt.Some? ==> rows[e].notes.recoveredAt == p.recoveredAt)
                && (p.updatePending.Some? ==> rows[e].notes.updatePending == p.updatePending.value)
                && (p == Patch(p.attempted, None, None, None) ==> rows[e].notes == old(rows)[e].notes)
    {
      if e !in rows { return Err(KeyError); }
      var v := rows[e];
      if p.attempted { v := v.(attempted := true); }
      var n := v.notes;
      if p.recoveryPending.Some? { n := n.(recoveryPending := p.recoveryPending); }
      if p.recoveredAt.Some? { n := n.(recoveredAt := p.recoveredAt); }
      if p.updatePending.Some? { n := n.(updatePending := p.updatePending.value); }
      rows := rows[e := v.(notes := n)];
      r := Ok(());
    }

    method ReserveExternalPost(e: EventId) returns (r: Result<bool, Error>)
      modifies this
      ensures match ReservePost(old(rows), e)
              case Ok((t, granted)) => rows == t && r == Ok(granted)
              case Err(x) => rows == old(rows) && r == Err(x)
      ensures r.Ok? <==> e in old(rows)
      ensures r == Ok(true) <==>
                e in old(rows) && old(rows)[e].record.None?
                && (!old(rows)[e].attempted || old(rows)[e].createState == Some(Retryable))
      ensures if r != Ok(true) then rows == old(rows) else
                && OnlyRow(old(rows), rows, e) && rows[e].notes.attempts == old(rows)[e].notes.attempts + 1
                && rows[e] == old(rows)[e].(attempted := true, createState := Some(InFlight), notes := rows[e].notes)
    {
      if e !in rows { return Err(KeyError); }
      var v := rows[e];
      if v.record.Some? { return Ok(false); }
      if v.attempted && v.createState != Some(Retryable) { return Ok(false); }
      rows := rows[e := v.(attempted := true, createState := Some(InFlight),
                           notes := v.notes.(attempts := v.notes.attempts + 1))];
      r := Ok(true);
    }

    method MarkExternalCreateOutcome(e: EventId, o: Outcome, error: Option<string>) returns (r: Result<(), Error>)
      modifies this
      ensures Did(r, old(rows), MarkOutcome(old(rows), e, o, error))
      ensures r.Ok? <==> e in old(rows)
      ensures r.Ok? ==>
                && OnlyRow(old(rows), rows, e) && rows[e].notes.lastError == error
                && rows[e].notes.owner.None? && rows[e].notes.leaseUntil.None?
                && rows[e] == old(rows)[e].(createState := Some(o), notes := rows[e].notes)
      ensures r.Ok? && old(rows)[e].record.None? ==>
                (MayPost(rows[e]) <==> !old(rows)[e].attempted || o == Retryable)
    {
      if e !in rows { return Err(KeyError); }
      var v := rows[e];
      var notes := v.notes.(lastError := error, owner := None, leaseUntil := None);
      rows := rows[e := v.(createState := Some(o), notes := notes)];
      r := Ok(());
    }

    /** Binds a cycle to its remote record, taking it over from earlier cycles
        one row at a time; an obstructing row undoes the takeovers made so far. */
    method BindExternalRecord(e: EventId, rec: Record) returns (r: Result<(), Error>)
      modifies this
      ensures Did(r, old(rows), Bind(old(rows), e, rec))
      ensures r.Ok? <==> Bindable(old(rows), e, rec)
      ensures r.Ok? ==> BoundInColumns(old(rows), rows, e, rec)
    {
      BindsExactly(rows, e, rec);
      if rec == "" { return Err(ValueError); }
      if e !in rows { return Err(KeyError); }
      if rows[e].record.Some? && rows[e].record.value != rec { return Err(ValueError); }
      var before := rows;
      var taken := TakeOver(e, rec);
      if !taken {
        rows := before;      // the write scope rolls back
        return Err(ValueError);
      }
      RecordBinding(e, rec);
      BindByParts(before, rows, e, rec);
      r := Ok(());
    }

    method RecordBinding(e: EventId, rec: Record)
      requires e in rows
      modifies this
      ensures rows == old(rows)[e := BoundTo(old(rows)[e], rec)]
    {
      var v := rows[e];
      var n := v.notes.(bindingPending := false, lastError := None, owner := None, leaseUntil := None);
      if v.closedAt.Some? {
        if n.recoveredAt.None? { n := n.(recoveredAt := v.closedAt); }
        if n.recoveryPending.None? { n := n.(recoveryPending := Some(true)); }
      }
      rows := rows[e := v.(record := Some(rec), createState := Some(Done), notes := n)];
    }

    // Supersedes the earlier cycles of the record, row by row; stops with false
    // at the first row that must not give it up.
    method TakeOver(e: EventId, rec: Record) returns (ok: bool)
      requires e in rows
      modifies this
      ensures ok <==> !exists o :: o in old(rows) && Obstructs(old(rows), e, rec, o)
      ensures ok ==> rows.Keys == old(rows).Keys
      ensures ok ==> forall o :: o in old(rows) ==> rows[o] == Turned(old(rows)[o], e, rec, o != e)
    {
      hide BoundTo, BoundNotes;
      var before := rows;
      var todo := rows.Keys - {e};
      while todo != {}
        invariant todo <= before.Keys - {e} && rows.Keys == before.Keys
        invariant forall o :: o in before ==> rows[o] == Turned(before[o], e, rec, o !in todo && o != e)
        invariant forall o :: o in before && o !in todo ==> !Obstructs(before, e, rec, o)
        decreases todo
      {
        var o :| o in todo;
        todo := todo - {o};
        var v := rows[o];
        if v.record == Some(rec) {
          if v.device != rows[e].device || v.status != Closed || v.openedAt >= rows[e].openedAt {
            assert Obstructs(before, e, rec, o);
            return false;
          }
          rows := rows[o := v.(supersededBy := Some(e),
                               notes := v.notes.(recoveryPending := Some(false), updatePending := false))];
        }
      }
      ok := true;
    }

    method PatchExternalEffect(e: EventId, key: string, m: Marker) returns (r: Result<(), Error>)
      modifies this
      ensures Did(r, old(rows), PatchEffect(old(rows), e, key, m))
      ensures r.Ok? <==> key != "" && e in old(rows)
      ensures r.Ok? ==>
                && OnlyRow(old(rows), rows, e) && rows[e] == old(rows)[e].(effects := rows[e].effects)
                && key in rows[e].effects
                && (rows[e].effects[key] == m || Proven(old(rows), e, key))
                && forall k :: k in old(rows)[e].effects && (k != key || Proven(old(rows), e, k)) ==>
                     k in rows[e].effects && rows[e].effects[k] == old(rows)[e].effects[k]
    {
      if key == "" { return Err(ValueError); }
      if e !in rows { return Err(KeyError); }
      var effects := rows[e].effects;
      if key in effects && effects[key].status == MarkerSucceeded { return Ok(()); }
      rows := rows[e := rows[e].(effects := effects[key := m])];
      r := Ok(());
    }

    method MarkExternalBindingPending(e: EventId, at: int) returns (r: Result<(), Error>)
      modifies this
      ensures Did(r, old(rows), MarkBindingPending(old(rows), e, at))
      ensures r.Ok? <==> e in old(rows)
      ensures r.Ok? && old(rows)[e].record.Some? ==> rows == old(rows)
      ensures r.Ok? && old(rows)[e].record.None? ==>
                && OnlyRow(old(rows), rows, e) && rows[e] == old(rows)[e].(notes := rows[e].notes)
                && rows[e].notes.bindingPending
                && rows[e].notes.requestedAt == Some(old(rows)[e].notes.requestedAt.GetOr(at))
    {
      if e !in rows { return Err(KeyError); }
      var v := rows[e];
      if v.record.Some? { return Ok(()); }
      var n := v.notes.(bindingPending := true);
      if n.requestedAt.None? { n := n.(requestedAt := Some(at)); }
      rows := rows[e := v.(notes := n)];
      r := Ok(());
    }

    method ClaimExternalCreate(e: EventId, owner: string, at: int, lease: int) returns (r: Result<bool, Error>)
      modifies this
      ensures match ClaimCreate(old(rows), e, owner, at, lease)
              case Ok((t, won)) => rows == t && r == Ok(won)
              case Err(x) => rows == old(rows) && r == Err(x)
      ensures r.Ok? <==> owner != "" && e in old(rows)
      ensures r == Ok(true) <==> owner != "" && e in old(rows) && !Leased(old(rows)[e], at)
      ensures if r != Ok(true) then rows == old(rows) else
                && OnlyRow(old(rows), rows, e) && rows[e] == old(rows)[e].(notes := rows[e].notes)
                && rows[e].notes.owner == Some(owner) && Leased(rows[e], at)
                && rows[e].notes.leaseUntil == Some(if lease < 1 then at + 1 else at + lease)
    {
      if owner == "" { return Err(ValueError); }
      if e !in rows { return Err(KeyError); }
      var n := rows[e].notes;
      if n.owner.Some? && n.leaseUntil.Some? && n.leaseUntil.value > at { return Ok(false); }
      var seconds := if lease > 1 then lease else 1;
      rows := rows[e := rows[e].(notes := n.(owner := Some(owner), leaseUntil := Some(at + seconds)))];
      r := Ok(true);
    }

    // The call did what the specification says, or refused and changed nothing.
    ghost predicate Did(r: Result<(), Error>, before: Table, spec: Result<Table, Error>)
      reads this
    {
      match spec
      case Ok(t) => rows == t && r == Ok(())
      case Err(x) => rows == before && r == Err(x)
    }
  }

  // ------------------------------------------------------- one step of anything

  datatype Op =
    | OpCreate(newId: EventId, reused: Option<EventId>, device: string, key: EventKey, at: int)
    | OpClose(e: EventId, at: int)
    | OpMissing(e: EventId, at: int)
    | OpPatch(e: EventId, p: Patch)
    | OpReserve(e: EventId)
    | OpOutcome(e: EventId, o: Outcome, error: Option<string>)
    | OpBind(e: EventId, rec: Record)
    | OpEffect(e: EventId, effect: string, m: Marker)
    | OpPending(e: EventId, at: int)
    | OpClaim(e: EventId, owner: string, at: int, lease: int)

  predicate Enabled(t: Table, op: Op) {
    op.OpCreate? ==> op.newId !in t && op.device != "" && IsReused(t, op.device, op.key, op.reused)
  }

  function OrSame(r: Result<Table, Error>, t: Table): Table { if r.Ok? then r.value else t }

  function OrSameFirst(r: Result<(Table, bool), Error>, t: Table): Table { if r.Ok? then r.value.0 else t }

  function Next(t: Table, op: Op): Table {
    match op
    case OpCreate(newId, reused, device, key, at) => CreateActive(t, reused, newId, device, key, at)
    case OpClose(e, at) => OrSame(Close(t, e, at), t)
    case OpMissing(e, at) => OrSame(MarkMissing(t, e, at), t)
    case OpPatch(e, p) => OrSame(PatchProjection(t, e, p), t)
    case OpReserve(e) => OrSameFirst(ReservePost(t, e), t)
    case OpOutcome(e, o, error) => OrSame(MarkOutcome(t, e, o, error), t)
    case OpBind(e, rec) => OrSame(Bind(t, e, rec), t)
    case OpEffect(e, key, m) => OrSame(PatchEffect(t, e, key, m), t)
    case OpPending(e, at) => OrSame(MarkBindingPending(t, e, at), t)
    case OpClaim(e, owner, at, lease) => OrSameFirst(ClaimCreate(t, e, owner, at, lease), t)
  }

  // ------------------------------------------------------- ownership of records

  // A superseded cycle is closed, opened strictly before the cycle it names, on
  // its device and bound to the same record; that one is not superseded.
  ghost predicate Succession(t: Table) {
    forall a :: a in t && t[a].supersededBy.Some? ==>
      && t[a].record.Some? && t[a].status == Closed && t[a].supersededBy.value in t
      && var o := t[t[a].supersededBy.value];
         o.record == t[a].record && o.supersededBy.None? && o.device == t[a].device && t[a].openedAt < o.openedAt
  }

  // Of two cycles bound to one record at least one is superseded.
  ghost predicate Exclusive(t: Table) {
    forall a, b :: a in t && b in t && a != b && t[a].record.Some? && t[a].record == t[b].record ==>
      t[a].supersededBy.Some? || t[b].supersededBy.Some?
  }

  ghost predicate Ownership(t: Table) { Succession(t) && Exclusive(t) }

  ghost predicate OneActive(t: Table) {
    && (forall a, b :: a in t && b in t && a != b && t[a].device == t[b].device ==>
          t[a].status == Closed || t[b].status == Closed)
    && (forall a, b :: a in t && b in t && a != b ==> t[a].key != t[b].key)
  }

  // What ownership depends on; a row may still be closed.
  predicate SameCore(v: Event, u: Event) {
    && u.device == v.device && u.key == v.key && u.openedAt == v.openedAt && u.record == v.record
    && u.supersededBy == v.supersededBy && (v.status == Closed ==> u.status == Closed)
  }

  lemma CoreDecides(t: Table, t': Table)
    requires t'.Keys == t.Keys && forall o :: o in t ==> SameCore(t[o], t'[o])
    requires Ownership(t) && OneActive(t)
    ensures Ownership(t') && OneActive(t')
  {
  }

  // Everything but creating and binding keeps the core of every row.
  lemma StepKeepsCore(t: Table, op: Op, o: EventId)
    requires Enabled(t, op) && !op.OpCreate? && !op.OpBind? && o in t
    ensures Next(t, op).Keys == t.Keys && SameCore(t[o], Next(t, op)[o])
  {
    hide BindRefused, IsReused, Proven;
  }

  lemma BindKeepsSuccession(t: Table, e: EventId, rec: Record)
    requires Ownership(t) && e in t && !BindRefused(t, e, rec)
    ensures Succession(BoundTable(t, e, rec))
  {
    BoundIsUnsuperseded(t, e, rec);
    hide BoundNotes, Exclusive;
    var t' := BoundTable(t, e, rec);
    forall a | a in t && t'[a].supersededBy.Some?
      ensures && t'[a].record.Some? && t'[a].status == Closed && t'[a].supersededBy.value in t'
              && var o := t'[t'[a].supersededBy.value];
                 && o.record == t'[a].record && o.supersededBy.None? && o.device == t'[a].device
                 && t'[a].openedAt < o.openedAt
    {
      assert !Obstructs(t, e, rec, a);
    }
  }

  lemma BoundIsUnsuperseded(t: Table, e: EventId, rec: Record)
    requires Succession(t) && e in t && !BindRefused(t, e, rec)
    ensures t[e].supersededBy.None?
  {
    assert forall o :: o in t ==> !Obstructs(t, e, rec, o);
  }

  lemma BindKeepsExclusive(t: Table, e: EventId, rec: Record)
    requires Exclusive(t) && e in t && (t[e].record.Some? ==> t[e].record.value == rec)
    ensures Exclusive(BoundTable(t, e, rec))
  {
    hide BoundNotes;
  }

  lemma BindKeepsActive(t: Table, e: EventId, rec: Record)
    requires OneActive(t) && e in t
    ensures OneActive(BoundTable(t, e, rec))
  {
    hide BoundNotes;
    var t' := BoundTable(t, e, rec);
    assert forall o :: o in t ==> t'[o].device == t[o].device && t'[o].key == t[o].key && t'[o].status == t[o].status;
  }

  /** Every operation keeps record ownership and the one-active-cycle rule. */
  lemma StepKeepsOwnership(t: Table, op: Op)
    requires Ownership(t) && OneActive(t) && Enabled(t, op)
    ensures Ownership(Next(t, op)) && OneActive(Next(t, op))
  {
    if op.OpBind? {
      if Bind(t, op.e, op.rec).Ok? {
        BindKeepsSuccession(t, op.e, op.rec);
        BindKeepsExclusive(t, op.e, op.rec);
        BindKeepsActive(t, op.e, op.rec);
      }
    } else if op.OpCreate? {
      CreateKeepsOwnership(t, op);
    } else {
      hide Next;
      forall o | o in t ensures Next(t, op).Keys == t.Keys && SameCore(t[o], Next(t, op)[o]) {
        StepKeepsCore(t, op, o);
      }
      if t == map[] { EmptyStays(t, op); }
      CoreDecides(t, Next(t, op));
    }
  }

  lemma EmptyStays(t: Table, op: Op)
    requires t == map[] && !op.OpCreate?
    ensures Next(t, op) == t
  {
  }

  lemma CreateKeepsOwnership(t: Table, op: Op)
    requires op.OpCreate? && Ownership(t) && OneActive(t) && Enabled(t, op)
    ensures Ownership(Next(t, op)) && OneActive(Next(t, op))
  {
    if op.reused.None? {
      assert forall y :: y in t ==> !HasKey(t, y, op.key) && !IsActive(t, y, op.device);
      assert Succession(Next(t, op));
    }
  }

  // Identity, binding, closure, supersession and a proven effect only ever grow.
  ghost predicate Grows(v: Event, u: Event) {
    && u.device == v.device && u.key == v.key && u.openedAt == v.openedAt
    && (v.record.Some? ==> u.record == v.record)
    && (v.status == Closed ==> u.status == Closed)
    && (v.supersededBy.Some? ==> u.supersededBy.Some?)
    && (v.attempted ==> u.attempted)
    && (forall k :: k in v.effects && v.effects[k].status == MarkerSucceeded ==>
          k in u.effects && u.effects[k] == v.effects[k])
  }

  lemma StepGrows(t: Table, op: Op, e: EventId)
    requires Enabled(t, op) && e in t
    ensures e in Next(t, op) && Grows(t[e], Next(t, op)[e])
  {
    if op.OpBind? {
      if Bind(t, op.e, op.rec).Ok? { BindGrows(t, op.e, op.rec, e); }
    } else {
      hide Bind;
      OtherGrows(t, op, e);
    }
  }

  lemma BindGrows(t: Table, b: EventId, rec: Record, e: EventId)
    requires e in t && b in t && (t[b].record.Some? ==> t[b].record.value == rec)
    ensures Grows(t[e], BoundTable(t, b, rec)[e])
  {
    hide BoundNotes;
  }

  lemma OtherGrows(t: Table, op: Op, e: EventId)
    requires Enabled(t, op) && e in t && !op.OpBind?
    ensures e in Next(t, op) && Grows(t[e], Next(t, op)[e])
  {
    hide Bind, IsReused;
  }

  function NextAll(t: Table, ops: seq<Op>): Table
    decreases |ops|
  {
    if ops == [] then t else Next(NextAll(t, ops[..|ops| - 1]), ops[|ops| - 1])
  }

  ghost predicate EnabledAll(t: Table, ops: seq<Op>) {
    forall i :: 0 <= i < |ops| ==> Enabled(NextAll(t, ops[..i]), ops[i])
  }

  // How a history splits at its last step.
  lemma LastStep(t: Table, ops: seq<Op>)
    requires EnabledAll(t, ops) && ops != []
    ensures EnabledAll(t, ops[..|ops| - 1])
    ensures Enabled(NextAll(t, ops[..|ops| - 1]), ops[|ops| - 1])
  {
    var init := ops[..|ops| - 1];
    assert forall i :: 0 <= i < |init| ==> init[..i] == ops[..i] && init[i] == ops[i];
  }

  /** From an empty table, every history keeps record ownership. */
  lemma {:induction false} HistoryKeepsOwnership(ops: seq<Op>)
    requires EnabledAll(map[], ops)
    ensures Ownership(NextAll(map[], ops)) && OneActive(NextAll(map[], ops))
  {
    if ops != [] {
      hide Next, Enabled;
      LastStep(map[], ops);
      HistoryKeepsOwnership(ops[..|ops| - 1]);
      StepKeepsOwnership(NextAll(map[], ops[..|ops| - 1]), ops[|ops| - 1]);
    }
  }

  /** Over any history a binding, once made, never changes; a closed cycle stays
      closed; and the marker of a proven effect stays exactly as it was. */
  lemma {:induction false} HistoryGrows(t: Table, ops: seq<Op>, e: EventId)
    requires EnabledAll(t, ops) && e in t
    ensures e in NextAll(t, ops) && Grows(t[e], NextAll(t, ops)[e])
  {
    if ops != [] {
      hide Next, Enabled;
      LastStep(t, ops);
      HistoryGrows(t, ops[..|ops| - 1], e);
      StepGrows(NextAll(t, ops[..|ops| - 1]), ops[|ops| - 1], e);
    }
  }

  // Someone holds the create of this cycle beyond `now`.
  predicate Leased(v: Event, now: int) {
    v.notes.owner.Some? && v.notes.leaseUntil.Some? && now < v.notes.leaseUntil.value
  }

  // Operations that give the create of cycle e back.
  predicate Releases(op: Op, e: EventId) { (op.OpOutcome? || op.OpBind?) && op.e == e }

  lemma LeaseStep(t: Table, op: Op, e: EventId, now: int)
    requires Enabled(t, op) && e in t && Leased(t[e], now) && !Releases(op, e)
    requires op.OpClaim? && op.e == e ==> op.at <= now
    ensures e in Next(t, op)
    ensures (Next(t, op)[e].notes.owner, Next(t, op)[e].notes.leaseUntil) == (t[e].notes.owner, t[e].notes.leaseUntil)
    ensures op.OpClaim? && op.e == e && op.owner != "" ==>
              ClaimCreate(t, e, op.owner, op.at, op.lease) == Ok((t, false))
  {
    hide BindRefused, IsReused;
  }

  /** Until its lease ends nobody else is granted the create of a cycle, in any
      history that records neither an outcome nor a binding for it. */
  lemma {:induction false} LeaseExcludesOthers(t: Table, ops: seq<Op>, e: EventId, now: int)
    requires EnabledAll(t, ops) && e in t && Leased(t[e], now)
    requires forall i :: 0 <= i < |ops| ==> !Releases(ops[i], e)
    requires forall i :: 0 <= i < |ops| && ops[i].OpClaim? && ops[i].e == e ==> ops[i].at <= now
    ensures e in NextAll(t, ops)
    ensures NextAll(t, ops)[e].notes.owner == t[e].notes.owner
    ensures NextAll(t, ops)[e].notes.leaseUntil == t[e].notes.leaseUntil
  {
    if ops != [] {
      hide Next, Enabled;
      LastStep(t, ops);
      LeaseExcludesOthers(t, ops[..|ops| - 1], e, now);
      LeaseStep(NextAll(t, ops[..|ops| - 1]), ops[|ops| - 1], e, now);
    }
  }

  /** A binding gives the create back: the next claim is granted even though the
      cycle is bound, so bound cycles are kept out by the callers alone. */
  lemma BoundCycleIsGranted(t: Table, e: EventId, rec: Record, owner: string, at: int, lease: int)
    requires Bind(t, e, rec).Ok? && owner != ""
    ensures var u := Bind(t, e, rec).value;
            u[e].record == Some(rec) && ClaimCreate(u, e, owner, at, lease).Ok?
            && ClaimCreate(u, e, owner, at, lease).value.1
  {
    hide BindRefused;
  }

  /** For every record that is bound at all there is exactly one owner. */
  lemma EveryRecordHasOneOwner(t: Table, a: EventId)
    requires Ownership(t) && a in t && t[a].record.Some?
    ensures exists o :: OwnerOf(t, a, o)
    ensures forall o, p :: OwnerOf(t, a, o) && OwnerOf(t, a, p) ==> o == p
    ensures forall o, p :: Unsuperseded(t, a, o) && Unsuperseded(t, a, p) ==> o == p
  {
    if t[a].supersededBy.None? { assert OwnerOf(t, a, a); }
    else { assert OwnerOf(t, a, t[a].supersededBy.value); }
  }

  // A cycle of the same record that no other has superseded.
  predicate Unsuperseded(t: Table, a: EventId, o: EventId)
    requires a in t
  {
    o in t && t[o].record == t[a].record && t[o].supersededBy.None?
  }

  ghost predicate OwnerOf(t: Table, a: EventId, o: EventId)
    requires a in t
  {
    && o in t && t[o].record == t[a].record && t[o].supersededBy.None?
    && (o != a ==> t[a].supersededBy == Some(o) && t[a].status == Closed && t[a].device == t[o].device
                   && t[a].openedAt < t[o].openedAt)
  }
}
