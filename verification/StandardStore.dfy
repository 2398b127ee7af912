/** Immutable standard versions, snapshots of them, and the two pointers that
    say which snapshot is in use. */
module StandardStore {
  import opened Base
  import opened Standards
  import opened Transactions

  type SnapId = string
  type Key = (string, string)

  // Business columns, then provenance.
  datatype Version = Version(content: Standard, source: string, validated: bool, validatedAt: int, createdAt: int)

  datatype Snapshot = Snapshot(source: string, at: int, members: set<Key>)

  datatype Store = Store(versions: map<Key, Version>, snapshots: map<SnapId, Snapshot>,
                         active: Option<SnapId>, good: Option<SnapId>)

  datatype RunStatus = RunRunning | RunSucceeded | RunFailed

  datatype RunRow = RunRow(source: string, status: RunStatus, count: nat, at: int, snapshot: Option<SnapId>)

  // What the connection stores: the standards and the audit of synchronisations.
  datatype Tables = Tables(store: Store, runs: seq<RunRow>)

  function KeyOf(s: Standard): Key { (s.id, s.revision) }

  // Standards reachable from a snapshot pointer; no pointer reaches nothing.
  function Contents(s: Store, id: Option<SnapId>): set<Standard> {
    if id.None? || id.value !in s.snapshots then {}
    else set k | k in s.snapshots[id.value].members && k in s.versions && s.versions[k].validated ::
           s.versions[k].content
  }

  ghost predicate Consistent(s: Store) {
    && (forall k :: k in s.versions ==> KeyOf(s.versions[k].content) == k)
    && (forall i, k :: i in s.snapshots && k in s.snapshots[i].members ==> k in s.versions && s.versions[k].validated)
    && (s.active.Some? ==> s.active.value in s.snapshots)
    && s.good == s.active
  }

  // ------------------------------------------------------- one snapshot

  function Touched(v: map<Key, Version>, x: Standard, source: string, at: int): Version {
    if KeyOf(x) in v then v[KeyOf(x)].(source := source, validated := true, validatedAt := at)
    else Version(x, source, true, at, at)
  }

  // A stored revision may be seen again, never with other business columns.
  function Incorporate(v: map<Key, Version>, xs: seq<Standard>, source: string, at: int): Option<map<Key, Version>> {
    if xs == [] then Some(v)
    else match Incorporate(v, xs[..|xs| - 1], source, at)
      case None => None
      case Some(u) =>
        var x := xs[|xs| - 1];
        if KeyOf(x) in u && u[KeyOf(x)].content != x then None else Some(u[KeyOf(x) := Touched(u, x, source, at)])
  }

  function Keys(xs: seq<Standard>): set<Key> { set x | x in xs :: KeyOf(x) }

  // Same business columns, counted with multiplicity.
  predicate MatchesActive(s: Store, xs: seq<Standard>) {
    s.active.Some? && multiset(Contents(s, s.active)) == multiset(xs)
  }

  predicate Repeats(xs: seq<Standard>) { exists i, j :: 0 <= i < j < |xs| && KeyOf(xs[i]) == KeyOf(xs[j]) }

  datatype Failure = BadSource | RevisionChanged | Integrity | Storage | FetchFailed | Invalid

  // The statements from the comparison with the active snapshot to the COMMIT,
  // of which the storage serves the first `left`.
  function Activate(s: Store, xs: seq<Standard>, source: string, at: int, id: SnapId, left: nat)
    : Result<Store, Failure>
  {
    if MatchesActive(s, xs) then (if left < 2 then Err(Storage) else Ok(s))
    else if left < 1 then Err(Storage)
    else if id in s.snapshots then Err(Integrity)
    else if left < 2 then Err(Storage)
    else if Repeats(xs) then Err(Integrity)
    else if left < 5 then Err(Storage)
    else Ok(Pointed(s, xs, source, at, id))
  }

  function Pointed(s: Store, xs: seq<Standard>, source: string, at: int, id: SnapId): Store {
    s.(snapshots := s.snapshots[id := Snapshot(source, at, Keys(xs))], active := Some(id), good := Some(id))
  }

  // The storage serves `fault` statements and fails the next one, COMMIT included.
  function Apply(s: Store, xs: seq<Standard>, source: string, at: int, id: SnapId, fault: nat)
    : Result<Store, Failure>
  {
    if !IsRemoteSource(source) then Err(BadSource)
    else if fault == 0 then Err(Storage)
    else match Incorporate(s.versions, xs[..Min(fault - 1, |xs|)], source, at)
      case None => Err(RevisionChanged)
      case Some(v) =>
        if fault <= |xs| then Err(Storage)
        else Activate(s.(versions := v), xs, source, at, id, fault - |xs| - 1)
  }

  // All statements of a synchronisation that meets no obstacle.
  function Statements(s: Store, xs: seq<Standard>): nat { 1 + |xs| + if MatchesActive(s, xs) then 2 else 5 }

  const REMOTE_PREFIX := "FEISHU:"

  predicate IsRemoteSource(source: string) { REMOTE_PREFIX <= Normalize(source) }

  /** The allowed sources: after outer blanks, the seven characters in either case. */
  lemma RemoteByText(source: string)
    ensures IsRemoteSource(source) <==>
              exists i, j :: && Trimmed(source, i, j) && i + 7 <= j
                             && forall k :: 0 <= k < 7 ==>
                                  source[i + k] == "FEISHU:"[k] || source[i + k] == "feishu:"[k]
  {
    NormalizeTrimsAndRaises(source);
    var i: nat, j: nat :| Trimmed(source, i, j) && Normalize(source) == Upper(source[i..j]);
    var u := Normalize(source);
    assert |u| == j - i;
    forall k | 0 <= k < 7 && k < |u|
      ensures u[k] == "FEISHU:"[k] <==> source[i + k] == "FEISHU:"[k] || source[i + k] == "feishu:"[k]
    {
      assert source[i..j][k] == source[i + k];
    }
    assert IsRemoteSource(source) <==> 7 <= |u| && forall k :: 0 <= k < 7 ==> u[k] == "FEISHU:"[k];
    forall a: nat, b: nat | Trimmed(source, a, b) && a < b ensures a == i && b == j { TrimmedOnce(source, a, b, i, j); }
  }

  lemma TrimmedOnce(s: string, a: nat, b: nat, i: nat, j: nat)
    requires Trimmed(s, a, b) && Trimmed(s, i, j) && a < b
    ensures a == i && b == j
  {
    assert s[a] != ' ' && s[b - 1] != ' ';
  }

  // A write of the scope on top of the stack.
  ghost predicate Writes(m: Machine<Tables>, m1: Machine<Tables>) {
    && m1.stack == m.stack && m1.next == m.next && m1.world.durable == m.world.durable && m1.world.open
  }

  // Work done, pending in the caller's transaction or durable without one.
  function Done(w: World<Tables>, t: Tables): World<Tables> {
    if w.open then w.(working := t) else World(t, t, false)
  }

  // How the scope opened in m ends: kept, undone, or undone after a refused COMMIT.
  lemma ScopeEnds(m: Machine<Tables>, m1: Machine<Tables>)
    requires m.Sound() && m1.Sound() && Writes(m.Push(RepositoryFrame), m1)
    ensures m1.CommitTop().world == Done(m.world, m1.world.working) && m1.CommitTop().stack == m.stack
    ensures m1.RollbackTop().world == m.world && m1.RollbackTop().stack == m.stack
    ensures m1.stack != [] && (m1.stack[|m1.stack| - 1].name.None? <==> !m.world.open)
    ensures !m.world.open ==>
              var m2 := m1.LeaveTxn(Returned, true).1;
              m2.RollbackTop().world == m.world && m2.RollbackTop().stack == m.stack
  {
    PopsItsOwn(m, m1);
    OwnFrameRestores(m, m1);
  }

  class StandardRepository {
    const db: Connection<Tables>

    constructor ()
      ensures fresh(db) && db.Valid() && Idle()
      ensures Now() == Tables(Store(map[], map[], None, None), []) && Consistent(Now().store)
    {
      db := new Connection(Tables(Store(map[], map[], None, None), []));
    }

    // The tables as this connection reads them.
    function Now(): Tables
      reads db
    {
      db.state.working
    }

    // No scope and no transaction is open.
    ghost predicate Idle()
      reads db
    {
      db.Valid() && db.View().stack == [] && !db.View().world.open
    }

    // One statement.
    method Execute(f: Tables -> Tables)
      requires db.Valid()
      modifies db
      ensures db.Valid() && Now() == f(old(Now())) && Writes(old(db.View()), db.View())
    {
      ViewTells(db.state);
      hide Session.Valid;
      var o := db.Execute(Write(f));
      ViewTells(db.state);
    }

    method InsertOrValidate(x: Standard, source: string, at: int) returns (ok: bool)
      requires db.Valid()
      modifies db
      ensures ok <==> !(KeyOf(x) in old(Now().store.versions) && old(Now().store.versions)[KeyOf(x)].content != x)
      ensures db.Valid()
      ensures ok ==> Writes(old(db.View()), db.View()) && Now() == Inserted(old(Now()), x, source, at)
      ensures !ok ==> db.View() == old(db.View())
    {
      hide Session.Valid;
      var k := KeyOf(x);
      var versions := Now().store.versions;
      if k in versions {
        var row := versions[k];
        if row.content != x { return false; }
        var touched := row.(source := source, validated := true, validatedAt := at);
        Execute((t: Tables) => t.(store := t.store.(versions := t.store.versions[k := touched])));
        return true;
      }
      var inserted := Version(x, source, true, at, at);
      Execute((t: Tables) => t.(store := t.store.(versions := t.store.versions[k := inserted])));
      return true;
    }

    function Inserted(t: Tables, x: Standard, source: string, at: int): Tables {
      t.(store := t.store.(versions := t.store.versions[KeyOf(x) := Touched(t.store.versions, x, source, at)]))
    }

    // Snapshot row, member rows, pointers: three statements, of which `left` are served.
    method CreateSnapshot(xs: seq<Standard>, source: string, at: int, id: SnapId, left: nat)
      returns (r: Result<(), Failure>)
      requires db.Valid() && db.View().world.open && !MatchesActive(Now().store, xs)
      modifies db
      ensures db.Valid() && Writes(old(db.View()), db.View())
      ensures r.Ok? ==> left >= 3 && Now() == old(Now()).(store := Pointed(old(Now().store), xs, source, at, id))
      ensures r.Ok? ==> Activate(old(Now().store), xs, source, at, id, left)
                        == if left < 5 then Err(Storage) else Ok(Now().store)
      ensures r.Err? ==> Activate(old(Now().store), xs, source, at, id, left) == Err(r.error)
    {
      hide Session.Valid, Keys;
      if left < 1 { return Err(Storage); }
      if id in Now().store.snapshots { return Err(Integrity); }
      var empty := Snapshot(source, at, {});
      Execute((t: Tables) => t.(store := t.store.(snapshots := t.store.snapshots[id := empty])));
      if left < 2 { return Err(Storage); }
      var members := Members(xs);
      if members.None? { return Err(Integrity); }
      var full := Snapshot(source, at, members.value);
      Execute((t: Tables) => t.(store := t.store.(snapshots := t.store.snapshots[id := full])));
      if left < 3 { return Err(Storage); }
      Execute((t: Tables) => t.(store := t.store.(active := Some(id), good := Some(id))));
      r := Ok(());
    }

    // The member keys, or None when one repeats.
    method Members(xs: seq<Standard>) returns (r: Option<set<Key>>)
      ensures r.None? <==> Repeats(xs)
      ensures r.Some? ==> r.value == Keys(xs)
    {
      var members: set<Key> := {};
      for n := 0 to |xs|
        invariant members == Keys(xs[..n]) && !Repeats(xs[..n])
      {
        assert xs[..n + 1] == xs[..n] + [xs[n]];
        if KeyOf(xs[n]) in members {
          ghost var i :| 0 <= i < n && KeyOf(xs[i]) == KeyOf(xs[n]);
          return None;
        }
        members := members + {KeyOf(xs[n])};
      }
      assert xs[..|xs|] == xs;
      r := Some(members);
    }

    /** Everything, or nothing at all, whichever statement the storage fails. */
    method ApplySnapshot(xs: seq<Standard>, source: string, at: int, id: SnapId, fault: nat)
      returns (r: Result<Option<SnapId>, Failure>)
      requires db.Valid()
      modifies db
      ensures db.Valid() && db.View().stack == old(db.View().stack)
      ensures r.Ok? <==> Apply(old(Now().store), xs, source, at, id, fault).Ok?
      ensures r.Ok? ==> Now().store == Apply(old(Now().store), xs, source, at, id, fault).value
      ensures r.Ok? ==> Now().runs == old(Now().runs) + [RunRow(source, RunSucceeded, |xs|, at, Now().store.active)]
      ensures r.Ok? ==> r.value == Now().store.active && db.View().world == Done(old(db.View().world), Now())
      ensures r.Err? ==> db.View().world == old(db.View().world)
      ensures r.Err? ==> Err(r.error) == Apply(old(Now().store), xs, source, at, id, fault)
    {
      assert !IsRemoteSource(source) ==> Apply(Now().store, xs, source, at, id, fault) == Err(BadSource);
      hide Session.Valid, Machine.Push, Machine.Pop, Machine.CommitTop, Machine.RollbackTop, Machine.Sound;
      hide Machine.LeaveTxn, Writes, Apply;
      if !IsRemoteSource(source) { return Err(BadSource); }
      ghost var m := db.View();
      ViewTells(db.state);
      db.Begin(RepositoryFrame);
      PushIsQuiet(m);
      ViewTells(db.state);
      var filled := Fill(xs, source, at, id, fault);
      ViewTells(db.state);
      ScopeEnds(m, db.View());
      if filled.Err? {
        db.RollbackSqlite();
        return Err(filled.error);
      }
      if fault <= filled.value {
        // COMMIT or RELEASE refused.
        if db.state.frames != [] && db.state.Top().name.None? { var refused := db.LeaveTxn(Returned, true); }
        db.RollbackSqlite();
        return Err(Storage);
      }
      db.CommitSqlite();
      ViewTells(db.state);
      r := Ok(Now().store.active);
    }

    // Every statement before the COMMIT; the answer is how many there were.
    method Fill(xs: seq<Standard>, source: string, at: int, id: SnapId, fault: nat) returns (r: Result<nat, Failure>)
      requires db.Valid() && db.View().world.open && IsRemoteSource(source)
      modifies db
      ensures db.Valid() && Writes(old(db.View()), db.View())
      ensures r.Ok? ==> Apply(old(Now().store), xs, source, at, id, fault)
                        == if fault <= r.value then Err(Storage) else Ok(Now().store)
      ensures r.Ok? ==> Now().runs == old(Now().runs) + [RunRow(source, RunSucceeded, |xs|, at, Now().store.active)]
      ensures r.Err? ==> Apply(old(Now().store), xs, source, at, id, fault) == Err(r.error)
    {
      hide Session.Valid, MatchesActive, Pointed;
      if fault == 0 { return Err(Storage); }
      ghost var m, s := db.View(), Now().store;
      var first := |Now().runs|;
      var running := RunRow(source, RunRunning, |xs|, at, None);
      Execute((t: Tables) => t.(runs := t.runs + [running]));
      var kept := KeepVersions(xs, source, at, fault - 1);
      if kept.Err? { return Err(kept.error); }
      var left := fault - |xs| - 1;
      ghost var v := Now().store;
      assert xs[..Min(fault - 1, |xs|)] == xs;
      assert Apply(s, xs, source, at, id, fault) == Activate(v, xs, source, at, id, left);
      var used := |xs| + 2;
      if !MatchesActive(Now().store, xs) {
        var created := CreateSnapshot(xs, source, at, id, left);
        if created.Err? { return Err(created.error); }
        left, used := left - 3, used + 3;
      }
      if left < 1 { return Err(Storage); }
      var done := RunRow(source, RunSucceeded, |xs|, at, Now().store.active);
      Execute((t: Tables) => t.(runs := t.runs[..Min(first, |t.runs|)] + [done]));
      r := Ok(used);
    }

    // One version after the other, as long as statements are served.
    method KeepVersions(xs: seq<Standard>, source: string, at: int, served: nat) returns (r: Result<(), Failure>)
      requires db.Valid() && db.View().world.open
      modifies db
      ensures db.Valid() && Writes(old(db.View()), db.View())
      ensures r.Ok? ==> |xs| <= served && Now() == old(Now()).(store := Now().store)
      ensures r.Ok? ==> Now().store == old(Now().store).(versions := Now().store.versions)
      ensures r.Ok? ==> Incorporate(old(Now().store.versions), xs, source, at) == Some(Now().store.versions)
      ensures r.Err? ==>
                match Incorporate(old(Now().store.versions), xs[..Min(served, |xs|)], source, at)
                case None => r.error == RevisionChanged
                case Some(_) => served < |xs| && r.error == Storage
    {
      hide Session.Valid;
      ghost var m, t := db.View(), Now();
      for n := 0 to |xs|
        invariant n <= served && db.Valid() && Writes(m, db.View())
        invariant Now() == t.(store := t.store.(versions := Now().store.versions))
        invariant Incorporate(t.store.versions, xs[..n], source, at) == Some(Now().store.versions)
      {
        if n == served { return Err(Storage); }
        assert xs[..n + 1][..n] == xs[..n];
        var ok := InsertOrValidate(xs[n], source, at);
        if !ok {
          RefusalStands(t.store.versions, xs, n + 1, Min(served, |xs|), source, at);
          return Err(RevisionChanged);
        }
      }
      assert xs[..|xs|] == xs;
      r := Ok(());
    }

    // The audit row of a failure, committed by itself.
    method RecordSyncFailure(source: string, count: nat, at: int)
      requires Idle()
      modifies db
      ensures Idle() && Now() == old(Now()).(runs := old(Now().runs) + [RunRow(source, RunFailed, count, at, None)])
    {
      var row := RunRow(source, RunFailed, count, at, None);
      ViewTells(db.state);
      Execute((t: Tables) => t.(runs := t.runs + [row]));
      ViewTells(db.state);
      db.CommitSqlite();
      ViewTells(db.state);
    }

    // The standards behind a pointer, in an order left open here.
    method ListSnapshot(id: Option<SnapId>) returns (xs: seq<Standard>)
      requires Consistent(Now().store)
      ensures Lists(xs, Contents(Now().store, id))
    {
      xs := [];
      var rest := Contents(Now().store, id);
      while rest != {}
        invariant Lists(xs, Contents(Now().store, id) - rest) && rest <= Contents(Now().store, id)
        decreases |rest|
      {
        var x :| x in rest;
        xs, rest := xs + [x], rest - {x};
      }
      assert Contents(Now().store, id) - {} == Contents(Now().store, id);
    }

    /** Active standards first, the last known good ones when none applies. */
    method Resolve(q: Query) returns (r: Selection)
      requires Consistent(Now().store)
      ensures exists xs :: Lists(xs, Contents(Now().store, Now().store.active)) && IsSelection(xs, q, r)
    {
      var xs := ListSnapshot(Now().store.active);
      r := SelectStandard(xs, q);
      if r == NotFound {
        var ys := ListSnapshot(Now().store.good);
        r := SelectStandard(ys, q);
      }
    }

    /** One synchronisation: fetch, validate, activate, and an audit row. */
    method Sync(c: SyncCall) returns (report: Report)
      requires Idle()
      modifies db
      ensures Idle() && Now().store == SyncNext(old(Now().store), c)
      ensures report.succeeded == Succeeds(old(Now().store), c)
      ensures report.changed == (old(Now().store.active) != Now().store.active)
      ensures |Now().runs| == |old(Now().runs)| + 1 && Now().runs[..|old(Now().runs)|] == old(Now().runs)
      ensures Now().runs[|old(Now().runs)|]
              == RunRow(c.source, if report.succeeded then RunSucceeded else RunFailed,
                        if c.fetched.Some? then |c.fetched.value| else 0, c.at,
                        if report.succeeded then Now().store.active else None)
    {
      hide Apply, ValidSnapshot;
      if c.fetched.None? {
        RecordSyncFailure(c.source, 0, c.at);
        return Report(false, false);
      }
      var errors := ValidateStandardSnapshot(c.fetched.value);
      if errors != [] {
        RecordSyncFailure(c.source, |c.fetched.value|, c.at);
        return Report(false, false);
      }
      ghost var t := Now();
      var previous := Now().store.active;
      ViewTells(db.state);
      var applied := ApplySnapshot(c.fetched.value, c.source, c.at, c.id, c.fault);
      ViewTells(db.state);
      if applied.Err? {
        assert Now() == t;
        RecordSyncFailure(c.source, |c.fetched.value|, c.at);
        return Report(false, false);
      }
      report := Report(true, previous != Now().store.active);
    }

    /** Any sequence of synchronisations. */
    method SyncAll(calls: seq<SyncCall>)
      requires Idle()
      modifies db
      ensures Idle() && Now().store == After(old(Now().store), calls)
    {
      for n := 0 to |calls|
        invariant Idle() && Now().store == After(old(Now().store), calls[..n])
      {
        assert calls[..n + 1][..n] == calls[..n];
        var report := Sync(calls[n]);
      }
      assert calls[..|calls|] == calls;
    }
  }

  lemma PushIsQuiet(m: Machine<Tables>)
    requires m.Sound()
    ensures Writes(m.Push(RepositoryFrame), m.Push(RepositoryFrame))
    ensures m.Push(RepositoryFrame).world.working == m.world.working
    ensures m.Push(RepositoryFrame).world.open
  {
  }

  // A sequence that holds each element of a set once.
  ghost predicate Lists(xs: seq<Standard>, c: set<Standard>) {
    (forall x :: x in xs <==> x in c) && forall i, j :: 0 <= i < j < |xs| ==> xs[i] != xs[j]
  }

  datatype Report = Report(succeeded: bool, changed: bool)

  // What one synchronisation meets: the fetched table, a clock, a new id, and how
  // many statements the storage serves.
  datatype SyncCall = SyncCall(fetched: Option<seq<Standard>>, source: string, at: int, id: SnapId, fault: nat)

  ghost predicate Succeeds(s: Store, c: SyncCall) {
    c.fetched.Some? && ValidSnapshot(c.fetched.value) && Apply(s, c.fetched.value, c.source, c.at, c.id, c.fault).Ok?
  }

  ghost function SyncNext(s: Store, c: SyncCall): Store {
    if Succeeds(s, c) then Apply(s, c.fetched.value, c.source, c.at, c.id, c.fault).value else s
  }

  ghost function After(s: Store, calls: seq<SyncCall>): Store {
    if calls == [] then s else SyncNext(After(s, calls[..|calls| - 1]), calls[|calls| - 1])
  }

  // The standards of the last successful synchronisation of a run.
  ghost function LastSuccess(s: Store, calls: seq<SyncCall>): Option<seq<Standard>> {
    if calls == [] then None
    else if Succeeds(After(s, calls[..|calls| - 1]), calls[|calls| - 1]) then calls[|calls| - 1].fetched
    else LastSuccess(s, calls[..|calls| - 1])
  }

  // ------------------------------------------------------- one step

  lemma {:induction false} RefusalStands(
    v: map<Key, Version>, xs: seq<Standard>, n: int, m: int, source: string, at: int)
    requires 0 <= n <= m <= |xs| && Incorporate(v, xs[..n], source, at) == None
    ensures Incorporate(v, xs[..m], source, at) == None
    decreases m
  {
    if n < m {
      assert xs[..m][..m - 1] == xs[..m - 1];
      RefusalStands(v, xs, n, m - 1, source, at);
    }
  }

  /** Incorporation succeeds exactly when no revision is seen with other business
      columns; it then holds every standard and changes no old business column. */
  lemma {:induction false} IncorporateKeepsHistory(v: map<Key, Version>, xs: seq<Standard>, source: string, at: int)
    ensures Incorporate(v, xs, source, at).Some? <==> Agree(v, xs)
    ensures Incorporate(v, xs, source, at).Some? ==> Extends(v, xs, Incorporate(v, xs, source, at).value)
  {
    if xs != [] {
      var n := |xs| - 1;
      assert xs == xs[..n] + [xs[n]];
      IncorporateKeepsHistory(v, xs[..n], source, at);
      if Incorporate(v, xs[..n], source, at).Some? {
        var u := Incorporate(v, xs[..n], source, at).value;
        OneMoreAgrees(v, xs[..n], xs[n], u);
        if Agree(v, xs) { OneMoreExtends(v, xs[..n], xs[n], u, source, at); }
      } else {
        assert forall i :: 0 <= i < n ==> xs[..n][i] == xs[i];
      }
    }
  }

  lemma OneMoreAgrees(v: map<Key, Version>, xs: seq<Standard>, x: Standard, u: map<Key, Version>)
    requires Agree(v, xs) && Extends(v, xs, u)
    ensures Agree(v, xs + [x]) <==> !(KeyOf(x) in u && u[KeyOf(x)].content != x)
  {
    var ys := xs + [x];
    assert ys[|xs|] == x && forall i :: 0 <= i < |xs| ==> ys[i] == xs[i] && xs[i] in xs;
    if KeyOf(x) in u && KeyOf(x) !in v { var y :| y in xs && KeyOf(y) == KeyOf(x); }
  }

  lemma OneMoreExtends(
    v: map<Key, Version>, xs: seq<Standard>, x: Standard, u: map<Key, Version>, source: string, at: int)
    requires Extends(v, xs, u) && !(KeyOf(x) in u && u[KeyOf(x)].content != x)
    ensures Extends(v, xs + [x], u[KeyOf(x) := Touched(u, x, source, at)])
  {
    var t := Touched(u, x, source, at);
    assert t.content == x && t.validated && (KeyOf(x) in u ==> t.createdAt == u[KeyOf(x)].createdAt);
    hide Touched;
    var w := u[KeyOf(x) := t];
    assert Keys(xs + [x]) == Keys(xs) + {KeyOf(x)};
    forall y | y in xs + [x] ensures w[KeyOf(y)].content == y && w[KeyOf(y)].validated {
      if y in xs { assert u[KeyOf(y)].content == y; }
    }
  }

  // No revision occurs with two different contents, in the table or in the list.
  predicate Agree(v: map<Key, Version>, xs: seq<Standard>) {
    && (forall i :: 0 <= i < |xs| && KeyOf(xs[i]) in v ==> v[KeyOf(xs[i])].content == xs[i])
    && (forall i, j :: 0 <= i < |xs| && 0 <= j < |xs| && KeyOf(xs[i]) == KeyOf(xs[j]) ==> xs[i] == xs[j])
  }

  predicate Extends(v: map<Key, Version>, xs: seq<Standard>, u: map<Key, Version>) {
    && u.Keys == v.Keys + Keys(xs)
    && (forall x :: x in xs ==> u[KeyOf(x)].content == x && u[KeyOf(x)].validated)
    && (forall k :: k in v ==> u[k].content == v[k].content && u[k].createdAt == v[k].createdAt)
    && (forall k :: k in v && v[k].validated ==> u[k].validated)
    && (forall k :: k in v && k !in Keys(xs) ==> u[k] == v[k])
  }

  function Elements(xs: seq<Standard>): set<Standard> { set x | x in xs }

  // Versions are never removed and never change their business columns.
  predicate Remembers(s: Store, u: Store) {
    && (forall k :: k in s.versions ==> k in u.versions)
    && (forall k :: k in s.versions ==> u.versions[k].content == s.versions[k].content)
    && (forall k :: k in s.versions ==> u.versions[k].createdAt == s.versions[k].createdAt)
  }

  // Every stored snapshot still reaches the same standards.
  predicate Frozen(s: Store, u: Store) {
    forall i :: i in s.snapshots ==> i in u.snapshots && Contents(u, Some(i)) == Contents(s, Some(i))
  }

  // Touching versions leaves every snapshot's standards alone.
  lemma IncorporatedIsConsistent(s: Store, xs: seq<Standard>, v: map<Key, Version>)
    requires Consistent(s) && Extends(s.versions, xs, v)
    ensures Consistent(s.(versions := v)) && Remembers(s, s.(versions := v)) && Frozen(s, s.(versions := v))
  {
    var u := s.(versions := v);
    forall k | k in v ensures KeyOf(v[k].content) == k {
      if k !in s.versions { var x :| x in xs && KeyOf(x) == k; }
    }
    forall i | i in s.snapshots ensures Contents(u, Some(i)) == Contents(s, Some(i)) {
      ContentsFollowVersions(s, u, i);
    }
  }

  lemma ContentsFollowVersions(s: Store, u: Store, i: SnapId)
    requires Consistent(s) && i in s.snapshots && i in u.snapshots && u.snapshots[i] == s.snapshots[i]
    requires forall k :: k in s.versions ==> k in u.versions && u.versions[k].content == s.versions[k].content
    requires forall k :: k in s.versions ==> (s.versions[k].validated ==> u.versions[k].validated)
    ensures Contents(u, Some(i)) == Contents(s, Some(i))
  {
    forall x ensures x in Contents(u, Some(i)) <==> x in Contents(s, Some(i)) {
      if x in Contents(u, Some(i)) {
        var k :| k in u.snapshots[i].members && k in u.versions
          && u.versions[k].validated && u.versions[k].content == x;
        assert k in s.versions && s.versions[k].content == x;
      }
      if x in Contents(s, Some(i)) {
        var k :| k in s.snapshots[i].members && k in s.versions
          && s.versions[k].validated && s.versions[k].content == x;
        assert k in u.versions && u.versions[k].content == x;
      }
    }
  }

  lemma MatchMeansSameElements(s: Store, xs: seq<Standard>)
    requires MatchesActive(s, xs)
    ensures Elements(xs) == Contents(s, s.active)
  {
    forall x ensures x in Elements(xs) <==> x in Contents(s, s.active) {
      assert x in multiset(xs) <==> x in multiset(Contents(s, s.active));
    }
  }

  lemma {:induction false} ListedOnce(xs: seq<Standard>, c: set<Standard>)
    requires !Repeats(xs) && Elements(xs) == c
    ensures multiset(xs) == multiset(c)
  {
    forall x ensures multiset(xs)[x] == multiset(c)[x] { CountOf(xs, x); }
  }

  lemma {:induction false} CountOf(xs: seq<Standard>, x: Standard)
    requires !Repeats(xs)
    ensures multiset(xs)[x] == if x in xs then 1 else 0
  {
    if xs != [] {
      var n := |xs| - 1;
      assert xs == xs[..n] + [xs[n]];
      assert !Repeats(xs[..n]);
      CountOf(xs[..n], x);
      assert xs[n] !in xs[..n];
    }
  }

  // A snapshot made of incorporated standards reaches exactly these.
  lemma NewSnapshotHolds(s: Store, xs: seq<Standard>, source: string, at: int, id: SnapId, left: nat)
    requires Consistent(s) && Activate(s, xs, source, at, id, left).Ok?
    requires forall x :: x in xs ==> KeyOf(x) in s.versions && s.versions[KeyOf(x)].content == x
    requires forall x :: x in xs ==> KeyOf(x) in s.versions && s.versions[KeyOf(x)].validated
    ensures var u := Activate(s, xs, source, at, id, left).value;
            Consistent(u) && Remembers(s, u) && Frozen(s, u) && Contents(u, u.active) == Elements(xs) && u.active.Some?
            && (!Repeats(xs) ==> (u.active != s.active <==> s.active.None? || Contents(s, s.active) != Elements(xs)))
  {
    var u := Activate(s, xs, source, at, id, left).value;
    if MatchesActive(s, xs) {
      MatchMeansSameElements(s, xs);
    } else {
      assert Contents(u, u.active) == Elements(xs) by {
        forall x | x in xs ensures x in Contents(u, u.active) { assert KeyOf(x) in Keys(xs); }
      }
      forall i | i in s.snapshots ensures Contents(u, Some(i)) == Contents(s, Some(i)) {
        ContentsFollowVersions(s, u, i);
      }
      if s.active.Some? && Contents(s, s.active) == Elements(xs) { ListedOnce(xs, Contents(s, s.active)); }
    }
  }

  /** What one synchronisation does to a consistent store.  On success exactly the
      fetched standards are active, and the pointer moves exactly when they are not
      the ones already active; on failure nothing changes.  Either way no stored
      business column and no stored snapshot changes. */
  lemma SyncStep(s: Store, c: SyncCall)
    requires Consistent(s)
    ensures var u := SyncNext(s, c);
            Consistent(u) && Remembers(s, u) && Frozen(s, u)
            && (!Succeeds(s, c) ==> u == s)
            && (Succeeds(s, c) ==> u.active.Some? && Contents(u, u.active) == Elements(c.fetched.value))
            && (Succeeds(s, c) ==> (u.active != s.active <==> Contents(s, s.active) != Elements(c.fetched.value)))
  {
    if Succeeds(s, c) { SuccessStep(s, c); }
  }

  lemma SuccessStep(s: Store, c: SyncCall)
    requires Consistent(s) && Succeeds(s, c)
    ensures var u := SyncNext(s, c);
            && Consistent(u) && Remembers(s, u) && Frozen(s, u)
            && u.active.Some? && Contents(u, u.active) == Elements(c.fetched.value)
            && (u.active != s.active <==> Contents(s, s.active) != Elements(c.fetched.value))
  {
    hide Succeeds, Activate, Incorporate, SyncNext, ValidSnapshot, Consistent, Contents, Elements, Extends, Keys;
    hide Remembers, Frozen, Repeats, Apply;
    SuccessUnfolds(s, c);
    var xs := c.fetched.value;
    IncorporateKeepsHistory(s.versions, xs, c.source, c.at);
    var v := Incorporate(s.versions, xs, c.source, c.at).value;
    IncorporatedIsConsistent(s, xs, v);
    ExtendsHolds(s.versions, xs, v);
    var m := s.(versions := v);
    NewSnapshotHolds(m, xs, c.source, c.at, c.id, c.fault - |xs| - 1);
    ActiveIsFrozen(s, m, xs);
    HistoryGoesOn(s, m, SyncNext(s, c));
  }

  lemma HistoryGoesOn(s: Store, m: Store, u: Store)
    requires Remembers(s, m) && Frozen(s, m) && Remembers(m, u) && Frozen(m, u)
    ensures Remembers(s, u) && Frozen(s, u)
  {
    hide Contents;
  }

  lemma ExtendsHolds(v: map<Key, Version>, xs: seq<Standard>, u: map<Key, Version>)
    requires Extends(v, xs, u)
    ensures forall x :: x in xs ==> KeyOf(x) in u && u[KeyOf(x)].content == x
    ensures forall x :: x in xs ==> KeyOf(x) in u && u[KeyOf(x)].validated
  {
    assert forall x :: x in xs ==> KeyOf(x) in Keys(xs);
  }

  lemma ActiveIsFrozen(s: Store, m: Store, xs: seq<Standard>)
    requires Consistent(s) && Frozen(s, m) && m.active == s.active && xs != []
    ensures Contents(m, m.active) == Contents(s, s.active)
    ensures s.active.None? ==> Contents(s, s.active) != Elements(xs)
  {
    assert xs[0] in Elements(xs);
  }

  lemma SuccessUnfolds(s: Store, c: SyncCall)
    requires Succeeds(s, c)
    ensures c.fetched.Some?
    ensures var xs := c.fetched.value;
            && xs != [] && !Repeats(xs) && |xs| < c.fault
            && Incorporate(s.versions, xs, c.source, c.at).Some?
            && var v := Incorporate(s.versions, xs, c.source, c.at).value;
            Activate(s.(versions := v), xs, c.source, c.at, c.id, c.fault - |xs| - 1) == Ok(SyncNext(s, c))
  {
    var xs := c.fetched.value;
    if |xs| < c.fault { assert xs[..Min(c.fault - 1, |xs|)] == xs; }
  }

  /** When a synchronisation succeeds, in terms a caller can look up. */
  lemma SucceedsExactly(s: Store, c: SyncCall)
    requires Consistent(s) && c.fetched.Some? && c.id !in s.snapshots
    ensures Succeeds(s, c) <==>
              ValidSnapshot(c.fetched.value) && IsRemoteSource(c.source) && Statements(s, c.fetched.value) <= c.fault
              && forall x :: x in c.fetched.value && KeyOf(x) in s.versions ==> s.versions[KeyOf(x)].content == x
  {
    var xs := c.fetched.value;
    if ValidSnapshot(xs) {
      assert !Repeats(xs);
      if |xs| < c.fault {
        assert xs[..Min(c.fault - 1, |xs|)] == xs;
        IncorporateKeepsHistory(s.versions, xs, c.source, c.at);
        if Incorporate(s.versions, xs, c.source, c.at).Some? {
          IncorporatedIsConsistent(s, xs, Incorporate(s.versions, xs, c.source, c.at).value);
        }
      }
    }
  }

  /** Where every standard of a successful synchronisation is said to come from, and
      the snapshot it is found in. */
  lemma SuccessInColumns(s: Store, c: SyncCall)
    requires Consistent(s) && Succeeds(s, c)
    ensures var u, xs := SyncNext(s, c), c.fetched.value;
            && (forall x :: x in xs ==>
                  && KeyOf(x) in u.versions && u.versions[KeyOf(x)].source == c.source
                  && u.versions[KeyOf(x)].validated && u.versions[KeyOf(x)].validatedAt == c.at
                  && (KeyOf(x) !in s.versions ==> u.versions[KeyOf(x)].createdAt == c.at))
            && (u.active == s.active ==> u.snapshots == s.snapshots)
            && (u.active != s.active ==>
                  && c.id !in s.snapshots && u.active == Some(c.id)
                  && u.snapshots
                  == s.snapshots[c.id := Snapshot(c.source, c.at, set x | x in xs :: (x.id, x.revision))])
  {
    SuccessUnfolds(s, c);
    IncorporateStamps(s.versions, c.fetched.value, c.source, c.at);
    hide Succeeds, SyncNext, Incorporate, MatchesActive;
    var xs := c.fetched.value;
    assert Keys(xs) == set x | x in xs :: (x.id, x.revision);
  }

  lemma {:induction false} IncorporateStamps(v: map<Key, Version>, xs: seq<Standard>, source: string, at: int)
    requires Incorporate(v, xs, source, at).Some?
    ensures var u := Incorporate(v, xs, source, at).value;
            && (forall x :: x in xs ==>
                  && KeyOf(x) in u && u[KeyOf(x)].source == source && u[KeyOf(x)].validated
                  && u[KeyOf(x)].validatedAt == at && (KeyOf(x) !in v ==> u[KeyOf(x)].createdAt == at))
            && (forall k :: k in v ==> k in u)
            && (forall k :: k in u && k !in v ==> u[k].createdAt == at)
  {
    if xs != [] {
      var n := |xs| - 1;
      assert xs == xs[..n] + [xs[n]];
      IncorporateStamps(v, xs[..n], source, at);
    }
  }

  // ------------------------------------------------------- whole runs

  /** Over any run the active standards are those of the last success, both
      pointers stay equal, and history is never rewritten. */
  lemma {:induction false} ActiveIsLastSuccess(s: Store, calls: seq<SyncCall>)
    requires Consistent(s)
    ensures var u := After(s, calls);
            Consistent(u) && u.good == u.active && Remembers(s, u) && Frozen(s, u)
    ensures LastSuccess(s, calls).None? ==> After(s, calls) == s
    ensures LastSuccess(s, calls).Some? ==>
              ValidSnapshot(LastSuccess(s, calls).value)
              && After(s, calls).active.Some?
              && Contents(After(s, calls), After(s, calls).active) == Elements(LastSuccess(s, calls).value)
  {
    if calls != [] {
      var n := |calls| - 1;
      ActiveIsLastSuccess(s, calls[..n]);
      SyncStep(After(s, calls[..n]), calls[n]);
    }
  }

  lemma ValidIgnoresOrder(xs: seq<Standard>, ys: seq<Standard>)
    requires ValidSnapshot(ys) && Lists(xs, Elements(ys))
    ensures ValidSnapshot(xs) && SameElements(xs, ys)
  {
    hide RowOk, RevisionsClash, PeersClash;
    assert ys[0] in xs;
    forall i | 0 <= i < |ys| ensures ys[i] in xs { assert ys[i] in Elements(ys); }
    forall i | 0 <= i < |xs| ensures RowOk(xs[i]) && xs[i] in ys { assert xs[i] in Elements(ys); }
    forall i, j | 0 <= i < j < |xs|
      ensures !(xs[i].id == xs[j].id && xs[i].revision == xs[j].revision)
      ensures !RevisionsClash(xs[i], xs[j]) && !PeersClash(xs[i], xs[j])
    {
      assert xs[i] in ys && xs[j] in ys;
      var a :| 0 <= a < |ys| && ys[a] == xs[i];
      var b :| 0 <= b < |ys| && ys[b] == xs[j];
      ClashesAreMutual(xs[i], xs[j]);
    }
  }

  lemma ClashesAreMutual(a: Standard, b: Standard)
    ensures RevisionsClash(a, b) <==> RevisionsClash(b, a)
    ensures PeersClash(a, b) <==> PeersClash(b, a)
  {
  }

  /** The resolver answers from the last successful synchronisation: whatever order
      the store lists it in, the answer is the one selection of the fetched list,
      and never a conflict when device ids are spelled consistently. */
  lemma ResolverFollowsLastSuccess(s: Store, calls: seq<SyncCall>, xs: seq<Standard>, q: Query, r: Selection)
    requires Consistent(s) && LastSuccess(s, calls).Some? && SpellingsDiffer(LastSuccess(s, calls).value)
    requires Lists(xs, Contents(After(s, calls), After(s, calls).active)) && IsSelection(xs, q, r)
    ensures IsSelection(LastSuccess(s, calls).value, q, r) && r != Conflict
  {
    hide IsSelection, SpellingsDiffer;
    var last := LastSuccess(s, calls).value;
    ActiveIsLastSuccess(s, calls);
    ValidIgnoresOrder(xs, last);
    SpellingsCarryOver(xs, last);
    SelectionIgnoresOrder(xs, last, q, r);
    ValidNeverConflicts(xs, q);
  }

  lemma SpellingsCarryOver(xs: seq<Standard>, ys: seq<Standard>)
    requires SameElements(xs, ys) && SpellingsDiffer(ys)
    ensures SpellingsDiffer(xs)
  {
    forall i, j | 0 <= i < |xs| && 0 <= j < |xs| && NormalDevice(xs[i].device) == NormalDevice(xs[j].device)
      ensures xs[i].device == xs[j].device
    {
      var a :| 0 <= a < |ys| && ys[a] == xs[i];
      var b :| 0 <= b < |ys| && ys[b] == xs[j];
    }
  }
}
