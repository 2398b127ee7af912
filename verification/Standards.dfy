/** Selection of the applicable standard, and validation of a whole snapshot. */
module Standards {
  import opened Base

  datatype ControlType = AllDay | OperationPeriod | MonitorOnly

  datatype Bounds = Bounds(low: real, high: real)

  datatype Standard = Standard(
    id: string, revision: string, area: string, operation: Option<string>,
    temperature: Option<Bounds>, humidity: Option<Bounds>, start: int, stop: Option<int>,
    priority: int, enabled: bool, device: Option<string>, control: Option<ControlType>,
    document: string, clause: Option<string>)

  // What construction of a standard guarantees.
  predicate WellFormed(s: Standard) {
    && Strip(s.id) != "" && Strip(s.revision) != "" && Strip(s.area) != "" && Strip(s.document) != ""
    && (s.device.Some? ==> Strip(s.device.value) != "")
    && (s.temperature.Some? ==> s.temperature.value.low <= s.temperature.value.high)
    && (s.humidity.Some? ==> s.humidity.value.low <= s.humidity.value.high)
    && (s.stop.Some? ==> s.start <= s.stop.value)
  }

  datatype Query = Query(area: string, operation: Option<string>, at: int, device: Option<string>)

  datatype Selection = NotFound | Conflict | Selected(standard: Standard)

  // ------------------------------------------------------- device identity

  function TrimLeft(s: string): string { if s != "" && s[0] == ' ' then TrimLeft(s[1..]) else s }

  function TrimRight(s: string): string {
    if s != "" && s[|s| - 1] == ' ' then TrimRight(s[..|s| - 1]) else s
  }

  function Upper(s: string): string {
    seq(|s|, i requires 0 <= i < |s| => if 'a' <= s[i] <= 'z' then s[i] - 'a' + 'A' else s[i])
  }

  function Strip(s: string): string { TrimRight(TrimLeft(s)) }

  function Normalize(s: string): string { Upper(Strip(s)) }

  // s without its outer blanks is s[i..j].
  ghost predicate Trimmed(s: string, i: nat, j: nat) {
    && i <= j <= |s|
    && (forall k :: 0 <= k < i ==> s[k] == ' ') && (forall k :: j <= k < |s| ==> s[k] == ' ')
    && (i < j ==> s[i] != ' ' && s[j - 1] != ' ')
  }

  lemma {:induction false} TrimLeftCuts(s: string) returns (i: nat)
    ensures i <= |s| && TrimLeft(s) == s[i..] && (i < |s| ==> s[i] != ' ')
    ensures forall k :: 0 <= k < i ==> s[k] == ' '
  {
    i := 0;
    if s != "" && s[0] == ' ' {
      i := TrimLeftCuts(s[1..]);
      assert forall k :: 1 <= k < i + 1 ==> s[k] == s[1..][k - 1];
      i := i + 1;
    }
  }

  lemma {:induction false} TrimRightCuts(s: string) returns (j: nat)
    ensures j <= |s| && TrimRight(s) == s[..j] && (j > 0 ==> s[j - 1] != ' ')
    ensures forall k :: j <= k < |s| ==> s[k] == ' '
  {
    j := |s|;
    if s != "" && s[|s| - 1] == ' ' { j := TrimRightCuts(s[..|s| - 1]); }
  }

  /** A normal device id is what lies between the outer blanks, with every letter
      from a to z in its upper case. */
  lemma NormalizeTrimsAndRaises(s: string)
    ensures exists i: nat, j: nat :: Trimmed(s, i, j) && Normalize(s) == Upper(s[i..j])
    ensures forall k :: 0 <= k < |Normalize(s)| ==> !('a' <= Normalize(s)[k] <= 'z')
  {
    var i := TrimLeftCuts(s);
    var n := TrimRightCuts(s[i..]);
    assert forall k :: i + n <= k < |s| ==> s[k] == s[i..][k - i];
    assert n > 0 ==> s[i..][n - 1] == s[i + n - 1];
    assert s[i..][..n] == s[i..i + n];
    if n == 0 {
      assert i == |s|;
    }
    assert Trimmed(s, i, i + n);
  }

  function NormalDevice(d: Option<string>): Option<string> { if d.None? then None else Some(Normalize(d.value)) }

  // ------------------------------------------------------- selection, declared

  predicate Applies(s: Standard, q: Query) {
    && s.enabled && s.area == q.area
    && (s.device.None? || NormalDevice(s.device) == NormalDevice(q.device))
    && s.start <= q.at && (s.stop.None? || q.at < s.stop.value)
    && (s.operation.None? || s.operation == q.operation)
  }

  // The selector shared by the revisions of one logical standard.
  function SelectorKey(s: Standard): (string, Option<string>, Option<string>, Option<ControlType>) {
    (s.area, NormalDevice(s.device), s.operation, s.control)
  }

  predicate Exact(s: Standard, q: Query) {
    q.device.Some? && s.device.Some? && NormalDevice(s.device) == NormalDevice(q.device)
  }

  predicate Matching(s: Standard, q: Query) { q.operation.Some? && s.operation == q.operation }

  // Lexicographic: device match, then operation match, then priority.
  predicate Outranks(a: Standard, b: Standard, q: Query) {
    if Exact(a, q) != Exact(b, q) then Exact(a, q)
    else if Matching(a, q) != Matching(b, q) then Matching(a, q)
    else a.priority > b.priority
  }

  // The revision in force: later than every other candidate of its chain.
  predicate Current(xs: seq<Standard>, q: Query, i: int)
    requires 0 <= i < |xs|
  {
    && Applies(xs[i], q)
    && forall j :: 0 <= j < |xs| && j != i && Applies(xs[j], q) && xs[j].id == xs[i].id ==>
         SelectorKey(xs[j]) == SelectorKey(xs[i]) && xs[j].start < xs[i].start
  }

  predicate ChainSettled(xs: seq<Standard>, q: Query, id: string) {
    exists i :: 0 <= i < |xs| && xs[i].id == id && Current(xs, q, i)
  }

  // Every chain with candidates has exactly one revision in force.
  predicate AllSettled(xs: seq<Standard>, q: Query) {
    forall j :: 0 <= j < |xs| && Applies(xs[j], q) ==> ChainSettled(xs, q, xs[j].id)
  }

  predicate Wins(xs: seq<Standard>, q: Query, i: int)
    requires 0 <= i < |xs|
  {
    Current(xs, q, i)
    && forall j :: 0 <= j < |xs| && j != i && Current(xs, q, j) ==> Outranks(xs[i], xs[j], q)
  }

  ghost predicate IsSelection(xs: seq<Standard>, q: Query, r: Selection) {
    match r
    case NotFound => forall j :: 0 <= j < |xs| ==> !Applies(xs[j], q)
    case Selected(s) => AllSettled(xs, q) && exists i :: 0 <= i < |xs| && xs[i] == s && Wins(xs, q, i)
    case Conflict =>
      && (exists j :: 0 <= j < |xs| && Applies(xs[j], q))
      && !(AllSettled(xs, q) && exists i :: 0 <= i < |xs| && Wins(xs, q, i))
  }

  // ------------------------------------------------------- selection, performed

  // Indices of the candidates in list order.
  method Candidates(xs: seq<Standard>, q: Query) returns (c: seq<int>)
    ensures forall k :: 0 <= k < |c| ==> 0 <= c[k] < |xs| && Applies(xs[c[k]], q)
    ensures forall j, k :: 0 <= j < k < |c| ==> c[j] < c[k]
    ensures forall j :: 0 <= j < |xs| && Applies(xs[j], q) ==> j in c
  {
    c := [];
    for n := 0 to |xs|
      invariant forall k :: 0 <= k < |c| ==> 0 <= c[k] < n && Applies(xs[c[k]], q)
      invariant forall j, k :: 0 <= j < k < |c| ==> c[j] < c[k]
      invariant forall j :: 0 <= j < n && Applies(xs[j], q) ==> j in c
    {
      if Applies(xs[n], q) { c := c + [n]; }
    }
  }

  predicate IsCandidateList(xs: seq<Standard>, q: Query, c: seq<int>) {
    && (forall k :: 0 <= k < |c| ==> 0 <= c[k] < |xs| && Applies(xs[c[k]], q))
    && (forall j :: 0 <= j < |xs| && Applies(xs[j], q) ==> j in c)
  }

  // The candidates of one logical standard, in list order.
  method Revisions(xs: seq<Standard>, c: seq<int>, id: string) returns (rs: seq<int>)
    requires forall k :: 0 <= k < |c| ==> 0 <= c[k] < |xs|
    requires forall j, k :: 0 <= j < k < |c| ==> c[j] != c[k]
    ensures forall i :: i in rs <==> i in c && xs[i].id == id
    ensures forall j, k :: 0 <= j < k < |rs| ==> rs[j] != rs[k]
  {
    rs := [];
    for n := 0 to |c|
      invariant forall i :: i in rs <==> i in c[..n] && xs[i].id == id
      invariant forall j, k :: 0 <= j < k < |rs| ==> rs[j] != rs[k]
    {
      assert c[..n + 1] == c[..n] + [c[n]] && c[n] !in c[..n];
      if xs[c[n]].id == id { rs := rs + [c[n]]; }
    }
    assert c[..|c|] == c;
  }

  method LatestStart(xs: seq<Standard>, rs: seq<int>) returns (t: int)
    requires rs != [] && forall k :: 0 <= k < |rs| ==> 0 <= rs[k] < |xs|
    ensures forall i :: i in rs ==> xs[i].start <= t
    ensures exists i :: i in rs && xs[i].start == t
  {
    t := xs[rs[0]].start;
    assert rs[0] in rs;
    for n := 0 to |rs|
      invariant forall k :: 0 <= k < n ==> xs[rs[k]].start <= t
      invariant exists i :: i in rs && xs[i].start == t
    {
      if xs[rs[n]].start > t { t := xs[rs[n]].start; }
    }
  }

  method StartingAt(xs: seq<Standard>, rs: seq<int>, t: int) returns (latest: seq<int>)
    requires forall k :: 0 <= k < |rs| ==> 0 <= rs[k] < |xs|
    requires forall j, k :: 0 <= j < k < |rs| ==> rs[j] != rs[k]
    ensures forall i :: i in latest <==> i in rs && xs[i].start == t
    ensures forall j, k :: 0 <= j < k < |latest| ==> latest[j] != latest[k]
  {
    latest := [];
    for n := 0 to |rs|
      invariant forall i :: i in latest <==> i in rs[..n] && xs[i].start == t
      invariant forall j, k :: 0 <= j < k < |latest| ==> latest[j] != latest[k]
    {
      assert rs[..n + 1] == rs[..n] + [rs[n]] && rs[n] !in rs[..n];
      if xs[rs[n]].start == t { latest := latest + [rs[n]]; }
    }
    assert rs[..|rs|] == rs;
  }

  method OneSelector(xs: seq<Standard>, rs: seq<int>) returns (same: bool)
    requires rs != [] && forall k :: 0 <= k < |rs| ==> 0 <= rs[k] < |xs|
    ensures same <==> forall i, j :: i in rs && j in rs ==> SelectorKey(xs[i]) == SelectorKey(xs[j])
  {
    hide SelectorKey;
    var key := SelectorKey(xs[rs[0]]);
    for n := 0 to |rs|
      invariant forall k :: 0 <= k < n ==> SelectorKey(xs[rs[k]]) == key
    {
      if SelectorKey(xs[rs[n]]) != key {
        assert rs[n] in rs && rs[0] in rs;
        return false;
      }
    }
    same := true;
  }

  // The latest revision of a chain, or None when selectors differ or starts tie.
  method Latest(xs: seq<Standard>, q: Query, c: seq<int>, id: string) returns (best: Option<int>)
    requires IsCandidateList(xs, q, c) && (exists i :: i in c && xs[i].id == id)
    requires forall j, k :: 0 <= j < k < |c| ==> c[j] != c[k]
    ensures best.Some? ==> 0 <= best.value < |xs| && xs[best.value].id == id && Current(xs, q, best.value)
    ensures best.None? ==> !ChainSettled(xs, q, id)
  {
    hide Applies, SelectorKey;
    var rs := Revisions(xs, c, id);
    assert rs != [] by { ghost var i :| i in c && xs[i].id == id; assert i in rs; }
    assert forall k :: 0 <= k < |rs| ==> rs[k] in rs;
    var same := OneSelector(xs, rs);
    var t := LatestStart(xs, rs);
    var latest := StartingAt(xs, rs, t);
    if same && |latest| == 1 {
      assert latest[0] in latest;
      assert forall i :: i in rs && i != latest[0] ==> i !in latest && xs[i].start < t;
      return Some(latest[0]);
    }
    best := None;
    if ChainSettled(xs, q, id) { SettledHasOneLatest(xs, q, rs, latest, t, id); }
  }

  // A settled chain has one selector and one revision with the latest start.
  lemma SettledHasOneLatest(xs: seq<Standard>, q: Query, rs: seq<int>, latest: seq<int>, t: int, id: string)
    requires ChainSettled(xs, q, id)
    requires forall i :: i in rs <==> 0 <= i < |xs| && Applies(xs[i], q) && xs[i].id == id
    requires (forall i :: i in rs ==> xs[i].start <= t) && exists i :: i in rs && xs[i].start == t
    requires forall i :: i in latest <==> i in rs && xs[i].start == t
    requires forall j, k :: 0 <= j < k < |latest| ==> latest[j] != latest[k]
    ensures |latest| == 1 && forall i, j :: i in rs && j in rs ==> SelectorKey(xs[i]) == SelectorKey(xs[j])
  {
    hide Applies, SelectorKey;
    var i :| 0 <= i < |xs| && xs[i].id == id && Current(xs, q, i);
    assert i in rs && forall j :: j in rs && j != i ==> xs[j].start < xs[i].start;
    assert i in latest && forall j :: j in latest ==> j == i;
    assert forall k :: 0 <= k < |latest| ==> latest[k] in latest;
    assert latest[0] == latest[|latest| - 1];
  }

  lemma CurrentIsUnique(xs: seq<Standard>, q: Query, i: int, j: int)
    requires 0 <= i < |xs| && 0 <= j < |xs| && Current(xs, q, i) && Current(xs, q, j) && xs[i].id == xs[j].id
    ensures i == j
  {
  }

  /** Candidates, one revision per logical standard, then precedence. */
  method SelectStandard(xs: seq<Standard>, q: Query) returns (r: Selection)
    ensures IsSelection(xs, q, r)
  {
    hide Applies, Current, Wins, ChainSettled;
    var c := Candidates(xs, q);
    if c == [] { return NotFound; }
    assert Applies(xs[c[0]], q);
    var collapsed := Collapse(xs, q, c);
    if collapsed.None? { return Conflict; }
    r := TopOf(xs, q, collapsed.value);
  }

  // One revision in force per logical standard, or None when a chain has none.
  method Collapse(xs: seq<Standard>, q: Query, c: seq<int>) returns (r: Option<seq<int>>)
    requires IsCandidateList(xs, q, c)
    requires forall j, k :: 0 <= j < k < |c| ==> c[j] != c[k]
    ensures r.None? <==> !AllSettled(xs, q)
    ensures r.Some? ==> AllInForce(xs, q, r.value)
    ensures r.Some? ==> forall i :: 0 <= i < |xs| && Current(xs, q, i) ==> i in r.value
  {
    hide Applies, Current, ChainSettled, HasRevision, AllInForce;
    var collapsed: seq<int> := [];
    NothingInForce(xs, q);
    for n := 0 to |c|
      invariant AllInForce(xs, q, collapsed)
      invariant forall k :: 0 <= k < n ==> HasRevision(xs, q, collapsed, xs[c[k]].id)
    {
      assert c[n] in c;
      var best := Latest(xs, q, c, xs[c[n]].id);
      if best.None? { return None; }
      ghost var before := collapsed;
      if best.value !in collapsed { collapsed := collapsed + [best.value]; }
      RevisionAdded(xs, q, before, collapsed, best.value);
    }
    forall i | 0 <= i < |xs| && Applies(xs[i], q)
      ensures ChainSettled(xs, q, xs[i].id) && HasRevision(xs, q, collapsed, xs[i].id)
    {
      assert i in c;
      RevisionSettles(xs, q, collapsed, xs[i].id);
    }
    forall i | 0 <= i < |xs| && Current(xs, q, i) ensures i in collapsed {
      CurrentApplies(xs, q, i);
      CurrentIsListed(xs, q, collapsed, i);
    }
    r := Some(collapsed);
  }

  predicate AllInForce(xs: seq<Standard>, q: Query, cs: seq<int>) {
    forall k :: 0 <= k < |cs| ==> 0 <= cs[k] < |xs| && Current(xs, q, cs[k])
  }

  predicate HasRevision(xs: seq<Standard>, q: Query, cs: seq<int>, id: string) {
    exists m :: 0 <= m < |cs| && 0 <= cs[m] < |xs| && xs[cs[m]].id == id && Current(xs, q, cs[m])
  }

  lemma NothingInForce(xs: seq<Standard>, q: Query)
    ensures AllInForce(xs, q, [])
  {
  }

  lemma RevisionAdded(xs: seq<Standard>, q: Query, cs: seq<int>, cs': seq<int>, i: int)
    requires AllInForce(xs, q, cs) && 0 <= i < |xs| && Current(xs, q, i)
    requires cs' == cs + [i] || (cs' == cs && i in cs)
    ensures AllInForce(xs, q, cs') && HasRevision(xs, q, cs', xs[i].id)
    ensures forall id :: HasRevision(xs, q, cs, id) ==> HasRevision(xs, q, cs', id)
  {
    hide Current;
    assert i in cs';
    forall id | HasRevision(xs, q, cs, id) ensures HasRevision(xs, q, cs', id) {
      var m :| 0 <= m < |cs| && 0 <= cs[m] < |xs| && xs[cs[m]].id == id && Current(xs, q, cs[m]);
      assert cs'[m] == cs[m];
    }
  }

  lemma RevisionSettles(xs: seq<Standard>, q: Query, cs: seq<int>, id: string)
    requires HasRevision(xs, q, cs, id)
    ensures ChainSettled(xs, q, id)
  {
    hide Current;
  }

  lemma CurrentApplies(xs: seq<Standard>, q: Query, i: int)
    requires 0 <= i < |xs| && Current(xs, q, i)
    ensures Applies(xs[i], q)
  {
  }

  lemma CurrentIsListed(xs: seq<Standard>, q: Query, cs: seq<int>, i: int)
    requires 0 <= i < |xs| && Current(xs, q, i) && HasRevision(xs, q, cs, xs[i].id)
    ensures i in cs
  {
    hide Current;
    var m :| 0 <= m < |cs| && 0 <= cs[m] < |xs| && xs[cs[m]].id == xs[i].id && Current(xs, q, cs[m]);
    CurrentIsUnique(xs, q, i, cs[m]);
  }

  // The single highest-ranked revision in force, or a conflict.
  method TopOf(xs: seq<Standard>, q: Query, cs: seq<int>) returns (r: Selection)
    requires exists j :: 0 <= j < |xs| && Applies(xs[j], q)
    requires AllSettled(xs, q)
    requires AllInForce(xs, q, cs)
    requires forall i :: 0 <= i < |xs| && Current(xs, q, i) ==> i in cs
    ensures IsSelection(xs, q, r)
  {
    hide Applies, Current, Outranks;
    ghost var j :| 0 <= j < |xs| && Applies(xs[j], q);
    assert ChainSettled(xs, q, xs[j].id);
    var top := cs[0];
    for n := 0 to |cs|
      invariant top in cs && forall k :: 0 <= k < n ==> !Outranks(xs[cs[k]], xs[top], q)
    {
      if Outranks(xs[cs[n]], xs[top], q) {
        forall k | 0 <= k < n ensures !Outranks(xs[cs[k]], xs[cs[n]], q) {
          OutranksIsOrdered(xs[cs[k]], xs[top], xs[cs[n]], q);
        }
        top := cs[n];
      }
      OutranksIsOrdered(xs[cs[n]], xs[cs[n]], xs[top], q);
    }
    for n := 0 to |cs|
      invariant forall k :: 0 <= k < n && cs[k] != top ==> Outranks(xs[top], xs[cs[k]], q)
    {
      if cs[n] != top && !Outranks(xs[top], xs[cs[n]], q) {
        assert !Outranks(xs[cs[n]], xs[top], q);
        forall w | 0 <= w < |xs| ensures !Wins(xs, q, w) {
          if Current(xs, q, w) { NoWinnerAmongLevel(xs, q, w, top, cs[n]); }
        }
        return Conflict;
      }
    }
    assert Wins(xs, q, top);
    r := Selected(xs[top]);
  }

  // Strict weak order of ranks.
  lemma OutranksIsOrdered(a: Standard, b: Standard, c: Standard, q: Query)
    ensures !Outranks(a, a, q)
    ensures Outranks(c, b, q) && !Outranks(a, b, q) ==> !Outranks(a, c, q)
    ensures Outranks(a, b, q) ==> !Outranks(b, a, q)
    ensures Outranks(a, b, q) && !Outranks(c, b, q) ==> Outranks(a, c, q) && !Outranks(c, a, q)
  {
    hide NormalDevice, Exact, Matching;
  }

  lemma NoWinnerAmongLevel(xs: seq<Standard>, q: Query, w: int, a: int, b: int)
    requires 0 <= w < |xs| && 0 <= a < |xs| && 0 <= b < |xs| && a != b && Current(xs, q, a) && Current(xs, q, b)
    requires !Outranks(xs[a], xs[b], q) && !Outranks(xs[w], xs[a], q)
    ensures !Wins(xs, q, w)
  {
    hide Applies, Outranks, Current;
  }

  // ------------------------------------------------------- selection, by the columns

  predicate SameDevice(a: Option<string>, b: Option<string>) {
    a.Some? && b.Some? && Normalize(a.value) == Normalize(b.value)
  }

  // Enabled, for the area, the device and the operation asked for, and in effect.
  predicate Offered(s: Standard, q: Query) {
    && s.enabled && s.area == q.area && s.start <= q.at && (s.stop.Some? ==> q.at < s.stop.value)
    && (s.device.Some? ==> SameDevice(s.device, q.device))
    && (s.operation.Some? ==> q.operation == s.operation)
  }

  // Of the offered revisions of its standard it started last.
  predicate Newest(xs: seq<Standard>, q: Query, i: int)
    requires 0 <= i < |xs|
  {
    && Offered(xs[i], q)
    && forall j :: 0 <= j < |xs| && j != i && Offered(xs[j], q) && xs[j].id == xs[i].id ==> xs[j].start < xs[i].start
  }

  // A standard for the very device wins over one for all, then one for the very
  // operation over one for all, then the higher priority.
  predicate Beats(s: Standard, t: Standard, q: Query) {
    && (SameDevice(t.device, q.device) ==> SameDevice(s.device, q.device))
    && (SameDevice(t.device, q.device) == SameDevice(s.device, q.device) ==>
          && (t.operation.Some? ==> s.operation.Some?)
          && (t.operation.Some? == s.operation.Some? ==> t.priority < s.priority))
  }

  // Offered revisions of one standard agree on what they are for, and one is the newest.
  ghost predicate ChainsAreClear(xs: seq<Standard>, q: Query) {
    && (forall i, j :: 0 <= i < |xs| && 0 <= j < |xs| && Offered(xs[i], q) && Offered(xs[j], q)
                       && xs[i].id == xs[j].id ==>
          && (xs[i].device.Some? <==> xs[j].device.Some?)
          && xs[i].operation == xs[j].operation && xs[i].control == xs[j].control)
    && (forall j :: 0 <= j < |xs| && Offered(xs[j], q) ==> HasNewest(xs, q, xs[j].id))
  }

  ghost predicate HasNewest(xs: seq<Standard>, q: Query, id: string) {
    exists i :: 0 <= i < |xs| && xs[i].id == id && Newest(xs, q, i)
  }

  // A newest revision that beats every other.
  ghost predicate Champion(xs: seq<Standard>, q: Query, i: int)
    requires 0 <= i < |xs|
  {
    Newest(xs, q, i) && forall j :: 0 <= j < |xs| && j != i && Newest(xs, q, j) ==> Beats(xs[i], xs[j], q)
  }

  /** The three answers by the columns: nothing is offered; the chains are clear and one
      newest revision beats every other, which is then the answer; or neither. */
  lemma SelectionByColumns(xs: seq<Standard>, q: Query, r: Selection)
    ensures IsSelection(xs, q, r) <==>
              match r
              case NotFound => forall j :: 0 <= j < |xs| ==> !Offered(xs[j], q)
              case Selected(s) => ChainsAreClear(xs, q) && exists i :: 0 <= i < |xs| && xs[i] == s && Champion(xs, q, i)
              case Conflict =>
                && (exists j :: 0 <= j < |xs| && Offered(xs[j], q))
                && !(ChainsAreClear(xs, q) && exists i :: 0 <= i < |xs| && Champion(xs, q, i))
  {
    forall s ensures Applies(s, q) <==> Offered(s, q) { }
    SettledByColumns(xs, q);
    if AllSettled(xs, q) {
      forall i | 0 <= i < |xs| ensures Wins(xs, q, i) <==> Champion(xs, q, i) { WinsByColumns(xs, q, i); }
    }
    hide Applies, Offered, AllSettled, ChainsAreClear, Wins, Champion;
  }

  lemma CurrentIsNewest(xs: seq<Standard>, q: Query, i: int)
    requires 0 <= i < |xs|
    ensures Current(xs, q, i) ==> Newest(xs, q, i)
    ensures ChainsAreClear(xs, q) && Newest(xs, q, i) ==> Current(xs, q, i)
  {
    forall s ensures Applies(s, q) <==> Offered(s, q) { }
    forall j | 0 <= j < |xs| && Applies(xs[j], q) && Applies(xs[i], q) && xs[j].id == xs[i].id && ChainsAreClear(xs, q)
      ensures SelectorKey(xs[j]) == SelectorKey(xs[i])
    {
      assert xs[i].device.Some? <==> xs[j].device.Some?;
    }
    hide Applies, Offered, SelectorKey, ChainsAreClear;
  }

  lemma SettledByColumns(xs: seq<Standard>, q: Query)
    ensures AllSettled(xs, q) <==> ChainsAreClear(xs, q)
  {
    forall s ensures Applies(s, q) <==> Offered(s, q) { }
    forall i | 0 <= i < |xs|
      ensures Current(xs, q, i) ==> Newest(xs, q, i)
      ensures ChainsAreClear(xs, q) && Newest(xs, q, i) ==> Current(xs, q, i)
    {
      CurrentIsNewest(xs, q, i);
    }
    if AllSettled(xs, q) {
      forall j | 0 <= j < |xs| && Offered(xs[j], q) ensures HasNewest(xs, q, xs[j].id) {
        assert ChainSettled(xs, q, xs[j].id);
      }
      forall i, j | 0 <= i < |xs| && 0 <= j < |xs| && Offered(xs[i], q) && Offered(xs[j], q) && xs[i].id == xs[j].id
        ensures SelectorKey(xs[i]) == SelectorKey(xs[j])
      {
        assert ChainSettled(xs, q, xs[i].id);
        var k :| 0 <= k < |xs| && xs[k].id == xs[i].id && Current(xs, q, k);
      }
    }
    if ChainsAreClear(xs, q) {
      forall j | 0 <= j < |xs| && Applies(xs[j], q) ensures ChainSettled(xs, q, xs[j].id) {
        assert HasNewest(xs, q, xs[j].id);
      }
    }
  }

  lemma WinsByColumns(xs: seq<Standard>, q: Query, i: int)
    requires 0 <= i < |xs| && AllSettled(xs, q)
    ensures Wins(xs, q, i) <==> Champion(xs, q, i)
  {
    SettledByColumns(xs, q);
    forall j | 0 <= j < |xs| ensures Current(xs, q, j) <==> Newest(xs, q, j) { CurrentIsNewest(xs, q, j); }
    forall j | 0 <= j < |xs| && j != i && Newest(xs, q, i) && Newest(xs, q, j)
      ensures Outranks(xs[i], xs[j], q) <==> Beats(xs[i], xs[j], q)
    {
      assert Offered(xs[i], q) && Offered(xs[j], q);
    }
    hide Current, Newest, Outranks, Beats, Applies, AllSettled, ChainsAreClear;
  }

  // ------------------------------------------------------- validation, declared

  function OverlapStart(a: Standard, b: Standard): int { Max(a.start, b.start) }

  function EarliestEnd(a: Standard, b: Standard): Option<int> {
    if a.stop.None? then b.stop else if b.stop.None? then a.stop else Some(Min(a.stop.value, b.stop.value))
  }

  predicate Overlap(a: Standard, b: Standard) {
    EarliestEnd(a, b).None? || OverlapStart(a, b) < EarliestEnd(a, b).value
  }

  /** Two intervals overlap exactly when some instant, the later start, is in both. */
  lemma OverlapIsCommonInstant(a: Standard, b: Standard)
    ensures Overlap(a, b) <==> exists t :: InForce(a, t) && InForce(b, t)
  {
    if Overlap(a, b) { assert InForce(a, OverlapStart(a, b)) && InForce(b, OverlapStart(a, b)); }
  }

  predicate InForce(s: Standard, t: int) { s.start <= t && (s.stop.None? || t < s.stop.value) }

  predicate Increasing(b: Option<Bounds>) { b.Some? && b.value.low < b.value.high }

  predicate RowOk(s: Standard) {
    s.device.Some? && s.control.Some? && Increasing(s.temperature) && Increasing(s.humidity)
  }

  predicate RevisionsClash(a: Standard, b: Standard) {
    && a.enabled && b.enabled && a.id == b.id && Overlap(a, b)
    && (SelectorKey(a) != SelectorKey(b) || a.start == b.start)
  }

  // Device ids are compared as written here, not normalised.
  predicate PeersClash(a: Standard, b: Standard) {
    && a.enabled && b.enabled && a.id != b.id && Overlap(a, b)
    && a.device == b.device && a.area == b.area && a.operation == b.operation && a.priority == b.priority
  }

  predicate ValidSnapshot(xs: seq<Standard>) {
    && xs != []
    && (forall i :: 0 <= i < |xs| ==> RowOk(xs[i]))
    && (forall i, j :: 0 <= i < j < |xs| ==>
          && !(xs[i].id == xs[j].id && xs[i].revision == xs[j].revision)
          && !RevisionsClash(xs[i], xs[j]) && !PeersClash(xs[i], xs[j]))
  }

  // ------------------------------------------------------- validation, performed

  datatype Problem = Empty | Duplicate(i: int) | BadRow(i: int) | RevisionPair(i: int, j: int) | Peers(i: int, j: int)

  /** Collects every problem; the list is empty exactly for a valid snapshot. */
  method ValidateStandardSnapshot(xs: seq<Standard>) returns (errors: seq<Problem>)
    ensures errors == [] <==> ValidSnapshot(xs)
  {
    hide RowOk, RevisionsClash, PeersClash;
    errors := if xs == [] then [Empty] else [];
    var rows := CheckRows(xs);
    var revisions := CheckRevisions(xs);
    var peers := CheckPeers(xs);
    errors := errors + rows + revisions + peers;
  }

  method CheckRows(xs: seq<Standard>) returns (errors: seq<Problem>)
    ensures errors == [] <==> Distinct(xs, |xs|) && forall k :: 0 <= k < |xs| ==> RowOk(xs[k])
  {
    hide RowOk;
    errors := [];
    var identities: set<(string, string)> := {};
    for i := 0 to |xs|
      invariant forall p :: p in identities <==> exists k :: 0 <= k < i && p == (xs[k].id, xs[k].revision)
      invariant errors == [] <==> Distinct(xs, i) && forall k :: 0 <= k < i ==> RowOk(xs[k])
    {
      if (xs[i].id, xs[i].revision) in identities { errors := errors + [Duplicate(i)]; }
      identities := identities + {(xs[i].id, xs[i].revision)};
      if !RowOk(xs[i]) { errors := errors + [BadRow(i)]; }
    }
  }

  method CheckRevisions(xs: seq<Standard>) returns (errors: seq<Problem>)
    ensures errors == [] <==> NoRevisionClash(xs, |xs|)
    ensures forall i, j :: RevisionPair(i, j) in errors <==> 0 <= i < j < |xs| && RevisionsClash(xs[i], xs[j])
  {
    hide RevisionsClash;
    errors := [];
    for i := 0 to |xs|
      invariant errors == [] <==> NoRevisionClash(xs, i)
      invariant forall a, b ::
                  RevisionPair(a, b) in errors <==> 0 <= a < i && a < b < |xs| && RevisionsClash(xs[a], xs[b])
    {
      var more := CheckRevisionsOf(xs, i);
      errors := errors + more;
    }
  }

  // The clashes of one standard with those after it.
  method CheckRevisionsOf(xs: seq<Standard>, i: nat) returns (errors: seq<Problem>)
    requires i < |xs|
    ensures errors == [] <==> forall j :: i < j < |xs| ==> !RevisionsClash(xs[i], xs[j])
    ensures forall a, b :: RevisionPair(a, b) in errors <==> a == i && i < b < |xs| && RevisionsClash(xs[i], xs[b])
  {
    hide RevisionsClash;
    errors := [];
    for j := i + 1 to |xs|
      invariant errors == [] <==> forall b :: i < b < j ==> !RevisionsClash(xs[i], xs[b])
      invariant forall a, b :: RevisionPair(a, b) in errors <==> a == i && i < b < j && RevisionsClash(xs[i], xs[b])
    {
      if RevisionsClash(xs[i], xs[j]) { errors := errors + [RevisionPair(i, j)]; }
    }
  }

  method CheckPeers(xs: seq<Standard>) returns (errors: seq<Problem>)
    ensures errors == [] <==> NoPeerClash(xs, |xs|)
    ensures forall i, j :: Peers(i, j) in errors <==> 0 <= i < j < |xs| && PeersClash(xs[i], xs[j])
  {
    hide PeersClash;
    errors := [];
    for i := 0 to |xs|
      invariant errors == [] <==> NoPeerClash(xs, i)
      invariant forall a, b :: Peers(a, b) in errors <==> 0 <= a < i && a < b < |xs| && PeersClash(xs[a], xs[b])
    {
      var more := CheckPeersOf(xs, i);
      errors := errors + more;
    }
  }

  // The clashes of one standard with those after it.
  method CheckPeersOf(xs: seq<Standard>, i: nat) returns (errors: seq<Problem>)
    requires i < |xs|
    ensures errors == [] <==> forall j :: i < j < |xs| ==> !PeersClash(xs[i], xs[j])
    ensures forall a, b :: Peers(a, b) in errors <==> a == i && i < b < |xs| && PeersClash(xs[i], xs[b])
  {
    hide PeersClash;
    errors := [];
    for j := i + 1 to |xs|
      invariant errors == [] <==> forall b :: i < b < j ==> !PeersClash(xs[i], xs[b])
      invariant forall a, b :: Peers(a, b) in errors <==> a == i && i < b < j && PeersClash(xs[i], xs[b])
    {
      if PeersClash(xs[i], xs[j]) { errors := errors + [Peers(i, j)]; }
    }
  }

  predicate Distinct(xs: seq<Standard>, n: int)
    requires 0 <= n <= |xs|
  {
    forall i, j :: 0 <= i < j < n ==> !(xs[i].id == xs[j].id && xs[i].revision == xs[j].revision)
  }

  // No clash between one of the first n standards and a later one.
  predicate NoRevisionClash(xs: seq<Standard>, n: int) {
    forall a, b :: 0 <= a < n && a < b < |xs| ==> !RevisionsClash(xs[a], xs[b])
  }

  predicate NoPeerClash(xs: seq<Standard>, n: int) {
    forall a, b :: 0 <= a < n && a < b < |xs| ==> !PeersClash(xs[a], xs[b])
  }

  // ------------------------------------------------------- validation rules out conflicts

  // Different spellings of a device id in the snapshot are different devices.
  predicate SpellingsDiffer(xs: seq<Standard>) {
    forall i, j :: 0 <= i < |xs| && 0 <= j < |xs| && NormalDevice(xs[i].device) == NormalDevice(xs[j].device) ==>
      xs[i].device == xs[j].device
  }

  // In a valid snapshot two candidates of one chain have different starts and one selector.
  lemma ChainIsOrdered(xs: seq<Standard>, q: Query, i: int, j: int)
    requires ValidSnapshot(xs) && 0 <= i < |xs| && 0 <= j < |xs| && i != j
    requires Applies(xs[i], q) && Applies(xs[j], q) && xs[i].id == xs[j].id
    ensures xs[i].start != xs[j].start && SelectorKey(xs[i]) == SelectorKey(xs[j])
  {
    OverlapIsCommonInstant(xs[i], xs[j]);
    OverlapIsCommonInstant(xs[j], xs[i]);
    assert InForce(xs[i], q.at) && InForce(xs[j], q.at);
    assert !RevisionsClash(xs[Min(i, j)], xs[Max(i, j)]);
  }

  lemma {:induction false} ChainHasCurrent(xs: seq<Standard>, q: Query, i: int)
    requires ValidSnapshot(xs) && 0 <= i < |xs| && Applies(xs[i], q)
    ensures ChainSettled(xs, q, xs[i].id)
    decreases q.at - xs[i].start
  {
    if !Current(xs, q, i) {
      var j :| 0 <= j < |xs| && j != i && Applies(xs[j], q) && xs[j].id == xs[i].id
        && !(SelectorKey(xs[j]) == SelectorKey(xs[i]) && xs[j].start < xs[i].start);
      ChainIsOrdered(xs, q, i, j);
      ChainHasCurrent(xs, q, j);
    }
  }

  // Two revisions in force are never level.
  lemma RanksDiffer(xs: seq<Standard>, q: Query, i: int, j: int)
    requires ValidSnapshot(xs) && SpellingsDiffer(xs) && 0 <= i < |xs| && 0 <= j < |xs| && i != j
    requires Current(xs, q, i) && Current(xs, q, j)
    ensures Outranks(xs[i], xs[j], q) || Outranks(xs[j], xs[i], q)
  {
    assert xs[i].id != xs[j].id;
    OverlapIsCommonInstant(xs[i], xs[j]);
    OverlapIsCommonInstant(xs[j], xs[i]);
    assert InForce(xs[i], q.at) && InForce(xs[j], q.at);
    assert RowOk(xs[i]) && RowOk(xs[j]);
    assert !PeersClash(xs[Min(i, j)], xs[Max(i, j)]);
  }

  lemma {:induction false} SomeoneWins(xs: seq<Standard>, q: Query, best: int, n: nat) returns (w: int)
    requires ValidSnapshot(xs) && SpellingsDiffer(xs) && 0 <= best < |xs| && Current(xs, q, best) && n <= |xs|
    requires forall j :: 0 <= j < n && j != best && Current(xs, q, j) ==> Outranks(xs[best], xs[j], q)
    ensures 0 <= w < |xs| && Wins(xs, q, w)
    decreases |xs| - n
  {
    if n == |xs| { return best; }
    if n != best && Current(xs, q, n) && !Outranks(xs[best], xs[n], q) {
      RanksDiffer(xs, q, n, best);
      w := SomeoneWins(xs, q, n, n + 1);
    } else {
      w := SomeoneWins(xs, q, best, n + 1);
    }
  }

  /** A valid snapshot with consistent spelling never yields a conflict. */
  lemma ValidNeverConflicts(xs: seq<Standard>, q: Query)
    requires ValidSnapshot(xs) && SpellingsDiffer(xs)
    ensures !IsSelection(xs, q, Conflict)
  {
    if j :| 0 <= j < |xs| && Applies(xs[j], q) {
      forall k | 0 <= k < |xs| && Applies(xs[k], q) ensures ChainSettled(xs, q, xs[k].id) { ChainHasCurrent(xs, q, k); }
      var i :| 0 <= i < |xs| && xs[i].id == xs[j].id && Current(xs, q, i);
      var w := SomeoneWins(xs, q, i, 0);
    }
  }

  /** The answer is unique ... */
  lemma SelectionIsUnique(xs: seq<Standard>, q: Query, r: Selection, r': Selection)
    requires IsSelection(xs, q, r) && IsSelection(xs, q, r')
    ensures r == r'
  {
    hide Applies, Current;
    if r.Selected? && r'.Selected? {
      var i :| 0 <= i < |xs| && xs[i] == r.standard && Wins(xs, q, i);
      var j :| 0 <= j < |xs| && xs[j] == r'.standard && Wins(xs, q, j);
      OutranksIsOrdered(xs[i], xs[j], xs[j], q);
      CurrentApplies(xs, q, i);
    } else if r.Selected? {
      var i :| 0 <= i < |xs| && xs[i] == r.standard && Wins(xs, q, i);
      CurrentApplies(xs, q, i);
    } else if r'.Selected? {
      var j :| 0 <= j < |xs| && xs[j] == r'.standard && Wins(xs, q, j);
      CurrentApplies(xs, q, j);
    }
  }

  predicate SameElements(xs: seq<Standard>, ys: seq<Standard>) {
    (forall i :: 0 <= i < |xs| ==> xs[i] in ys) && (forall i :: 0 <= i < |ys| ==> ys[i] in xs)
  }

  // Being in force does not depend on list order when elements are distinct.
  lemma CurrentMoves(xs: seq<Standard>, ys: seq<Standard>, q: Query, i: int, k: int)
    requires ValidSnapshot(xs) && ValidSnapshot(ys) && SameElements(xs, ys)
    requires 0 <= i < |xs| && 0 <= k < |ys| && xs[i] == ys[k]
    requires Current(xs, q, i)
    ensures Current(ys, q, k)
  {
    forall j | 0 <= j < |ys| && j != k && Applies(ys[j], q) && ys[j].id == ys[k].id
      ensures SelectorKey(ys[j]) == SelectorKey(ys[k]) && ys[j].start < ys[k].start
    {
      var m :| 0 <= m < |xs| && xs[m] == ys[j];
      ChainIsOrdered(ys, q, k, j);
      assert m != i;
    }
  }

  /** ... and does not depend on the order of the standards. */
  lemma SelectionIgnoresOrder(xs: seq<Standard>, ys: seq<Standard>, q: Query, r: Selection)
    requires ValidSnapshot(xs) && ValidSnapshot(ys) && SameElements(xs, ys) && SpellingsDiffer(xs)
    requires IsSelection(xs, q, r)
    ensures IsSelection(ys, q, r)
  {
    hide ValidSnapshot, Applies, Outranks, SpellingsDiffer;
    ValidNeverConflicts(xs, q);
    if r.Selected? {
      forall k | 0 <= k < |ys| && Applies(ys[k], q) ensures ChainSettled(ys, q, ys[k].id) { ChainHasCurrent(ys, q, k); }
      var i :| 0 <= i < |xs| && xs[i] == r.standard && Wins(xs, q, i);
      var k :| 0 <= k < |ys| && ys[k] == xs[i];
      CurrentMoves(xs, ys, q, i, k);
      forall j | 0 <= j < |ys| && j != k && Current(ys, q, j) ensures Outranks(ys[k], ys[j], q) {
        var m :| 0 <= m < |xs| && xs[m] == ys[j];
        CurrentMoves(ys, xs, q, j, m);
        assert m != i by { assert ys[j].id != ys[k].id; }
      }
    }
  }

  // ------------------------------------------------------- validation is not too strict

  /** Of two enabled standards under consistent spelling, validation objects to exactly
      those that some query would find level. */
  lemma PeersClashExactly(a: Standard, b: Standard)
    requires a.enabled && b.enabled && a.id != b.id
    requires NormalDevice(a.device) == NormalDevice(b.device) ==> a.device == b.device
    ensures PeersClash(a, b) <==> exists q :: IsSelection([a, b], q, Conflict)
  {
    hide IsSelection, PeersClash;
    if PeersClash(a, b) { ClashingPeersConflict(a, b); }
    if q :| IsSelection([a, b], q, Conflict) { ConflictingPeersClash(a, b, q); }
  }

  lemma ClashingPeersConflict(a: Standard, b: Standard)
    requires a.enabled && b.enabled && a.id != b.id && PeersClash(a, b)
    requires NormalDevice(a.device) == NormalDevice(b.device) ==> a.device == b.device
    ensures exists q :: IsSelection([a, b], q, Conflict)
  {
    var xs := [a, b];
    assert xs[0] == a && xs[1] == b;
    var q := Query(a.area, a.operation, OverlapStart(a, b), a.device);
    assert Applies(xs[0], q) && Applies(xs[1], q);
    assert Current(xs, q, 0) && Current(xs, q, 1);
    assert !Wins(xs, q, 0) && !Wins(xs, q, 1);
    assert IsSelection(xs, q, Conflict);
  }

  lemma ConflictingPeersClash(a: Standard, b: Standard, q: Query)
    requires a.enabled && b.enabled && a.id != b.id && IsSelection([a, b], q, Conflict)
    requires NormalDevice(a.device) == NormalDevice(b.device) ==> a.device == b.device
    ensures PeersClash(a, b)
  {
    var xs := [a, b];
    assert xs[0] == a && xs[1] == b;
    assert forall i :: 0 <= i < 2 ==> (Applies(xs[i], q) ==> Current(xs, q, i));
    assert forall i :: 0 <= i < 2 && Applies(xs[i], q) ==> ChainSettled(xs, q, xs[i].id);
    assert !Wins(xs, q, 0) && !Wins(xs, q, 1);
    assert Applies(a, q) && Applies(b, q);
    assert !Outranks(a, b, q) && !Outranks(b, a, q);
    OverlapIsCommonInstant(a, b);
    assert InForce(a, q.at) && InForce(b, q.at);
  }

  /** Of two enabled revisions of one standard with one selector, validation objects to
      exactly those between which some query could not decide; revisions with different
      selectors it refuses as soon as they share an instant. */
  lemma RevisionsClashExactly(a: Standard, b: Standard)
    requires a.enabled && b.enabled && a.id == b.id
    ensures SelectorKey(a) == SelectorKey(b) ==>
              (RevisionsClash(a, b) <==> exists q :: IsSelection([a, b], q, Conflict))
    ensures SelectorKey(a) != SelectorKey(b) ==> (RevisionsClash(a, b) <==> exists t :: InForce(a, t) && InForce(b, t))
  {
    OverlapIsCommonInstant(a, b);
    var xs := [a, b];
    assert xs[0] == a && xs[1] == b;
    if SelectorKey(a) == SelectorKey(b) {
      if RevisionsClash(a, b) {
        var q := Query(a.area, a.operation, OverlapStart(a, b), a.device);
        assert Applies(xs[0], q) && Applies(xs[1], q);
        assert !Current(xs, q, 0) && !Current(xs, q, 1);
        assert !ChainSettled(xs, q, xs[0].id);
        assert IsSelection(xs, q, Conflict);
      }
      if q :| IsSelection(xs, q, Conflict) {
        assert Applies(a, q) || Applies(b, q);
        var i := if !Applies(a, q) || (Applies(b, q) && a.start < b.start) then 1 else 0;
        if !RevisionsClash(a, b) {
          assert Applies(a, q) && Applies(b, q) ==> InForce(a, q.at) && InForce(b, q.at);
          assert Current(xs, q, i) && !Current(xs, q, 1 - i);
          assert ChainSettled(xs, q, xs[i].id);
          assert Wins(xs, q, i);
        }
      }
    }
  }

  /** What a valid snapshot is, by the columns of its rows and by its pairs. */
  lemma ValidByColumns(xs: seq<Standard>)
    ensures ValidSnapshot(xs) <==>
              && |xs| > 0
              && (forall i :: 0 <= i < |xs| ==>
                    && xs[i].device.Some? && xs[i].control.Some? && xs[i].temperature.Some? && xs[i].humidity.Some?
                    && xs[i].temperature.value.low < xs[i].temperature.value.high
                    && xs[i].humidity.value.low < xs[i].humidity.value.high)
              && (forall i, j :: 0 <= i < j < |xs| ==> (xs[i].id, xs[i].revision) != (xs[j].id, xs[j].revision))
              && (forall i, j :: 0 <= i < j < |xs| ==> !RevisionsClash(xs[i], xs[j]) && !PeersClash(xs[i], xs[j]))
  {
    hide RevisionsClash, PeersClash;
  }

  // ------------------------------------------------------- why spelling matters

  // Standards as the source constructs them, with device ids of a vocabulary.
  ghost predicate Uses(xs: seq<Standard>, vocabulary: iset<string>) {
    forall i :: 0 <= i < |xs| ==> WellFormed(xs[i]) && (xs[i].device.Some? ==> xs[i].device.value in vocabulary)
  }

  ghost predicate Injective(vocabulary: iset<string>) {
    forall a, b :: a in vocabulary && b in vocabulary && Normalize(a) == Normalize(b) ==> a == b
  }

  ghost predicate NeverConflicts(vocabulary: iset<string>) {
    forall xs, q :: Uses(xs, vocabulary) && ValidSnapshot(xs) ==> !IsSelection(xs, q, Conflict)
  }

  function Plain(id: string, device: string): Standard
    requires Strip(id) != "" && Strip(device) != ""
  {
    Standard(id, "1", "A", None, Some(Bounds(0.0, 1.0)), Some(Bounds(0.0, 1.0)), 0, None, 0, true,
                Some(device), Some(AllDay), "d", None)
  }

  lemma TwoSpellingsConflict(a: string, b: string)
    requires a != b && Strip(a) != "" && Normalize(a) == Normalize(b)
    ensures var xs := [Plain("s", a), Plain("t", b)];
            ValidSnapshot(xs) && IsSelection(xs, Query("A", None, 0, Some(a)), Conflict)
  {
    var xs, q := [Plain("s", a), Plain("t", b)], Query("A", None, 0, Some(a));
    assert xs[0].id == "s" && xs[1].id == "t" && "s"[0] != "t"[0];
    assert Applies(xs[0], q) && Applies(xs[1], q);
    assert Current(xs, q, 0) && Current(xs, q, 1);
    assert !Outranks(xs[0], xs[1], q) && !Outranks(xs[1], xs[0], q);
    assert !Wins(xs, q, 0) && !Wins(xs, q, 1);
  }

  lemma InjectiveSpellings(xs: seq<Standard>, vocabulary: iset<string>)
    requires Uses(xs, vocabulary) && Injective(vocabulary) && ValidSnapshot(xs)
    ensures SpellingsDiffer(xs)
  {
    hide RevisionsClash, PeersClash, Normalize, WellFormed;
    assert forall i :: 0 <= i < |xs| ==> RowOk(xs[i]);
  }

  lemma TwoSpellingsAreUsable(a: string, b: string, vocabulary: iset<string>)
    requires a in vocabulary && b in vocabulary && Strip(a) != "" && Strip(b) != ""
    ensures Uses([Plain("s", a), Plain("t", b)], vocabulary)
  {
    var xs := [Plain("s", a), Plain("t", b)];
    assert xs[0] == Plain("s", a) && xs[1] == Plain("t", b);
  }

  /** Validation rules out every run-time conflict for a vocabulary of device ids
      exactly when trimming and upper-casing keep its ids apart. */
  lemma SafeIffInjective(vocabulary: iset<string>)
    requires forall d :: d in vocabulary ==> Strip(d) != ""
    ensures NeverConflicts(vocabulary) <==> Injective(vocabulary)
  {
    hide Uses, ValidSnapshot, IsSelection, Plain, Strip, SpellingsDiffer;
    if Injective(vocabulary) {
      forall xs, q | Uses(xs, vocabulary) && ValidSnapshot(xs) ensures !IsSelection(xs, q, Conflict) {
        InjectiveSpellings(xs, vocabulary);
        ValidNeverConflicts(xs, q);
      }
    } else {
      var a, b :| a in vocabulary && b in vocabulary && Normalize(a) == Normalize(b) && a != b;
      TwoSpellingsConflict(a, b);
      TwoSpellingsAreUsable(a, b, vocabulary);
    }
  }
}
