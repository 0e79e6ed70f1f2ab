/** The token-usage panel: flat (client, model) aggregates grouped by client. */
module Usage {
  import opened Prelude
  import opened Wire

  datatype Counts = Counts(requests: int, inTokens: int, outTokens: int, streamed: int, unreported: int) {
    function Plus(o: Counts): Counts {
      Counts(requests + o.requests, inTokens + o.inTokens, outTokens + o.outTokens,
             streamed + o.streamed, unreported + o.unreported)
    }

    function Total(): int { inTokens + outTokens }
  }

  const ZERO := Counts(0, 0, 0, 0, 0)

  datatype Name = Name(text: string)

  /** One row of the query; `user` and `status` are those of the users table, None when the client is gone. */
  datatype Row = Row(userName: Name, user: Option<int>, status: Option<string>, model: string, counts: Counts)

  datatype ByModel = ByModel(model: string, counts: Counts)

  /** `bar` is the number in the ub-* class. */
  datatype Client = Client(name: Name, registered: bool, status: string, counts: Counts, models: seq<ByModel>, bar: int)

  /** The footer shows every count of `totals` but the streamed one. */
  datatype Panel = Panel(clients: seq<Client>, clientCount: nat, totals: Counts)

  // ── The grouping, stated directly ────────────────────────────────────────────

  function RowsOf(rows: seq<Row>, name: Name): seq<Row> {
    if rows == [] then []
    else if Last(rows).userName == name then RowsOf(Front(rows), name) + [Last(rows)]
    else RowsOf(Front(rows), name)
  }

  /** The client names in the order of their first rows. */
  function Names(rows: seq<Row>): seq<Name> {
    if rows == [] then []
    else if Last(rows).userName in Names(Front(rows)) then Names(Front(rows))
    else Names(Front(rows)) + [Last(rows).userName]
  }

  function Sum(rows: seq<Row>): Counts {
    if rows == [] then ZERO else Sum(Front(rows)).Plus(Last(rows).counts)
  }

  function Models(rows: seq<Row>): seq<ByModel> {
    if rows == [] then [] else Models(Front(rows)) + [ByModel(Last(rows).model, Last(rows).counts)]
  }

  /** A client's line before its bar is known; whether it is registered is read off its first row. */
  function ClientOf(name: Name, own: seq<Row>): Client {
    Client(name, own != [] && own[0].user.Some?,
           if own != [] && own[0].user.Some? && own[0].status.Some? then own[0].status.value else "",
           Sum(own), Models(own), 0)
  }

  lemma RowsOfSnoc(rows: seq<Row>, r: Row, name: Name)
    ensures RowsOf(rows + [r], name) == if r.userName == name then RowsOf(rows, name) + [r] else RowsOf(rows, name)
  {
    assert Front(rows + [r]) == rows;
  }

  lemma NamesSnoc(rows: seq<Row>, r: Row)
    ensures Names(rows + [r]) == if r.userName in Names(rows) then Names(rows) else Names(rows) + [r.userName]
  {
    assert Front(rows + [r]) == rows;
  }

  lemma SumSnoc(rows: seq<Row>, r: Row)
    ensures Sum(rows + [r]) == Sum(rows).Plus(r.counts)
    ensures Models(rows + [r]) == Models(rows) + [ByModel(r.model, r.counts)]
  {
    assert Front(rows + [r]) == rows;
  }

  lemma {:induction false} NamesHaveRows(rows: seq<Row>, name: Name)
    ensures name in Names(rows) <==> RowsOf(rows, name) != []
  {
    if rows != [] { NamesHaveRows(Front(rows), name); }
  }

  lemma {:induction false} NamesAreDistinct(rows: seq<Row>)
    ensures forall i, j :: 0 <= i < j < |Names(rows)| ==> Names(rows)[i] != Names(rows)[j]
  {
    if rows != [] { NamesAreDistinct(Front(rows)); }
  }

  // ── Sums and maxima over names ───────────────────────────────────────────────

  function SumBy(f: Name -> Counts, names: seq<Name>): Counts {
    if names == [] then ZERO else SumBy(f, Front(names)).Plus(f(Last(names)))
  }

  function CountBy(f: Name -> int, names: seq<Name>): int {
    if names == [] then 0 else CountBy(f, Front(names)) + f(Last(names))
  }

  function MaxBy(f: Name -> int, names: seq<Name>): int {
    if names == [] then 0
    else if f(Last(names)) > MaxBy(f, Front(names)) then f(Last(names)) else MaxBy(f, Front(names))
  }

  lemma InFrontOrLast<T>(s: seq<T>, x: T)
    requires s != []
    ensures x in s <==> x in Front(s) || x == Last(s)
  {
    assert s == Front(s) + [Last(s)];
  }

  lemma PlusLaws(a: Counts, b: Counts, c: Counts)
    ensures a.Plus(b.Plus(c)) == a.Plus(b).Plus(c) && a.Plus(b).Plus(c) == a.Plus(c).Plus(b)
  {
  }

  predicate DistinctNames(names: seq<Name>) {
    forall i, j :: 0 <= i < j < |names| ==> names[i] != names[j]
  }

  /** Changing what one name contributes changes the sum by as much, once. */
  lemma {:induction false} SumByChanges(f: Name -> Counts, g: Name -> Counts, names: seq<Name>, x: Name, d: Counts)
    requires DistinctNames(names) && g(x) == f(x).Plus(d) && forall n :: n != x ==> g(n) == f(n)
    ensures SumBy(g, names) == if x in names then SumBy(f, names).Plus(d) else SumBy(f, names)
  {
    if names != [] {
      var last := Last(names);
      SumByChanges(f, g, Front(names), x, d);
      InFrontOrLast(names, x);
      if last == x {
        assert x !in Front(names);
        PlusLaws(SumBy(f, Front(names)), f(x), d);
      } else {
        PlusLaws(SumBy(f, Front(names)), d, f(last));
      }
    }
  }

  lemma {:induction false} CountByChanges(f: Name -> int, g: Name -> int, names: seq<Name>, x: Name)
    requires DistinctNames(names) && g(x) == f(x) + 1 && forall n :: n != x ==> g(n) == f(n)
    ensures CountBy(g, names) == if x in names then CountBy(f, names) + 1 else CountBy(f, names)
  {
    if names != [] {
      CountByChanges(f, g, Front(names), x);
      InFrontOrLast(names, x);
      if Last(names) == x { assert x !in Front(names); }
    }
  }

  lemma {:induction false} MaxByBounds(f: Name -> int, names: seq<Name>)
    ensures MaxBy(f, names) >= 0 && forall i :: 0 <= i < |names| ==> f(names[i]) <= MaxBy(f, names)
    ensures MaxBy(f, names) > 0 ==> exists i :: 0 <= i < |names| && f(names[i]) == MaxBy(f, names)
  {
    if names != [] {
      MaxByBounds(f, Front(names));
      forall i | 0 <= i < |names| - 1 ensures Front(names)[i] == names[i] { }
      if MaxBy(f, Front(names)) > 0 {
        var i :| 0 <= i < |Front(names)| && f(Front(names)[i]) == MaxBy(f, Front(names));
        assert names[i] == Front(names)[i];
      }
    }
  }

  lemma {:induction false} MaxByAgrees(f: Name -> int, g: Name -> int, names: seq<Name>)
    requires forall i :: 0 <= i < |names| ==> f(names[i]) == g(names[i])
    ensures MaxBy(f, names) == MaxBy(g, names)
  {
    if names != [] { MaxByAgrees(f, g, Front(names)); }
  }

  // ── The panel ────────────────────────────────────────────────────────────────

  /** One of eleven fixed widths. */
  function UsageBarClass(tokens: int, max: int): (bar: int)
    ensures bar % 10 == 0 && 0 <= bar <= 100
    ensures bar > 0 <==> tokens > 0 && max > 0
  {
    if tokens <= 0 || max <= 0 then 0
    else Quantized(tokens * 100 / max)
  }

  function Quantized(pct: int): (bar: int)
    ensures bar % 10 == 0 && 10 <= bar <= 100
  {
    var floored := if pct < 10 then 10 else pct;
    var stepped := floored - floored % 10;
    if stepped > 100 then 100 else stepped
  }

  /** The total a client is ranked by. */
  function TotalOf(rows: seq<Row>, name: Name): int {
    Sum(RowsOf(rows, name)).Total()
  }

  function Largest(rows: seq<Row>): int {
    MaxBy(n => TotalOf(rows, n), Names(rows))
  }

  function NewClient(r: Row): Client {
    Client(r.userName, r.user.Some?, if r.user.Some? && r.status.Some? then r.status.value else "", ZERO, [], 0)
  }

  function AddRow(c: Client, r: Row): Client {
    c.(counts := c.counts.Plus(r.counts), models := c.models + [ByModel(r.model, r.counts)])
  }

  lemma AddRowIsClientOf(own: seq<Row>, r: Row)
    ensures ClientOf(r.userName, own + [r]) == AddRow(if own == [] then NewClient(r) else ClientOf(r.userName, own), r)
  {
    SumSnoc(own, r);
    if own != [] { assert (own + [r])[0] == own[0]; }
  }

  /** One client per name seen so far, in the order of first rows. */
  ghost predicate Grouped(byName: map<Name, Client>, order: seq<Name>, rows: seq<Row>) {
    && order == Names(rows)
    && forall name :: GroupedAt(byName, rows, name)
  }

  predicate GroupedAt(byName: map<Name, Client>, rows: seq<Row>, name: Name) {
    && (name in byName <==> RowsOf(rows, name) != [])
    && (name in byName ==> byName[name] == ClientOf(name, RowsOf(rows, name)))
  }

  lemma GroupedNext(byName: map<Name, Client>, rows: seq<Row>, r: Row, name: Name)
    requires GroupedAt(byName, rows, name) && GroupedAt(byName, rows, r.userName)
    ensures GroupedAt(byName[r.userName :=
                        AddRow(if r.userName in byName then byName[r.userName] else NewClient(r), r)],
                      rows + [r], name)
  {
    RowsOfSnoc(rows, r, name);
    AddRowIsClientOf(RowsOf(rows, r.userName), r);
  }

  /** The first pass groups the rows. */
  method GroupRows(rows: seq<Row>) returns (byName: map<Name, Client>, order: seq<Name>, totals: Counts)
    ensures Grouped(byName, order, rows) && totals == Sum(rows)
  {
    order, byName, totals := [], map[], ZERO;
    for i := 0 to |rows|
      invariant Grouped(byName, order, rows[..i]) && totals == Sum(rows[..i])
    {
      var r := rows[i];
      ghost var before, seen := byName, rows[..i];
      assert GroupedAt(before, seen, r.userName);
      assert rows[..i + 1] == seen + [r];
      NamesSnoc(seen, r);
      NamesHaveRows(seen, r.userName);
      SumSnoc(seen, r);
      if r.userName !in byName {
        byName := byName[r.userName := NewClient(r)];
        order := order + [r.userName];
      }
      byName := byName[r.userName := AddRow(byName[r.userName], r)];
      totals := totals.Plus(r.counts);
      forall name ensures GroupedAt(byName, seen + [r], name) {
        assert GroupedAt(before, seen, name);
        GroupedNext(before, seen, r, name);
      }
    }
    assert rows[..|rows|] == rows;
  }

  function Scaled(c: Client, max: int): Client {
    c.(bar := UsageBarClass(c.counts.Total(), max))
  }

  /** The second pass scales the bars to the largest client. */
  method ScaleBars(byName: map<Name, Client>, order: seq<Name>) returns (clients: seq<Client>)
    requires forall i :: 0 <= i < |order| ==> order[i] in byName
    ensures |clients| == |order|
    ensures forall i :: 0 <= i < |order| ==>
      clients[i] == Scaled(byName[order[i]], MaxBy(n => if n in byName then byName[n].counts.Total() else 0, order))
  {
    var max := 0;
    ghost var f := (n: Name) => if n in byName then byName[n].counts.Total() else 0;
    for i := 0 to |order|
      invariant max == MaxBy(f, order[..i])
    {
      var t := byName[order[i]].counts.Total();
      if t > max { max := t; }
      assert Front(order[..i + 1]) == order[..i];
    }
    assert order[..|order|] == order;
    clients := [];
    for i := 0 to |order|
      invariant |clients| == i
      invariant forall j :: 0 <= j < i ==> clients[j] == Scaled(byName[order[j]], max)
    {
      var c := byName[order[i]];
      clients := clients + [c.(bar := UsageBarClass(c.counts.Total(), max))];
    }
  }

  method BuildUsagePanel(rows: seq<Row>) returns (panel: Panel)
    ensures panel.totals == Sum(rows) == Tallies(rows) && panel.clientCount == |Names(rows)| == |panel.clients|
    ensures AreScaled(panel.clients, Names(rows), rows, Largest(rows))
    ensures AreLines(panel.clients, Names(rows), rows, Largest(rows))
  {
    var byName, order, totals := GroupRows(rows);
    forall i | 0 <= i < |order|
      ensures order[i] in byName && byName[order[i]] == ClientOf(order[i], RowsOf(rows, order[i]))
    {
      assert order[i] in order && GroupedAt(byName, rows, order[i]);
      NamesHaveRows(rows, order[i]);
    }
    var clients := ScaleBars(byName, order);
    MaxByAgrees(n => TotalOf(rows, n), n => if n in byName then byName[n].counts.Total() else 0, order);
    panel := Panel(clients, |order|, totals);
    SumTallies(rows);
    ScaledAreLines(clients, order, rows, Largest(rows));
  }

  predicate AreScaled(clients: seq<Client>, names: seq<Name>, rows: seq<Row>, largest: int) {
    |clients| == |names| && forall i :: 0 <= i < |names| ==>
      clients[i] == Scaled(ClientOf(names[i], RowsOf(rows, names[i])), largest)
  }

  predicate AreLines(clients: seq<Client>, names: seq<Name>, rows: seq<Row>, largest: int) {
    |clients| == |names| && forall i :: 0 <= i < |names| ==> IsLineOf(clients[i], RowsOf(rows, names[i]), largest)
  }

  lemma ScaledAreLines(clients: seq<Client>, names: seq<Name>, rows: seq<Row>, largest: int)
    requires names == Names(rows) && AreScaled(clients, names, rows, largest)
    ensures AreLines(clients, names, rows, largest)
  {
    forall i | 0 <= i < |names| ensures IsLineOf(clients[i], RowsOf(rows, names[i]), largest) {
      assert names[i] in names;
      NamesHaveRows(rows, names[i]);
      LineHolds(rows, names[i], largest);
    }
  }

  /** One client's line: who it is and whether still registered, read off its first row; its rows as models; its
      counts; and its bar against the largest client. */
  predicate IsLineOf(c: Client, own: seq<Row>, largest: int) {
    && own != [] && c.name == own[0].userName
    && (c.registered <==> own[0].user.Some?)
    && c.status == (match own[0].status case Some(s) => if own[0].user.Some? then s else "" case None => "")
    && |c.models| == |own|
    && (forall i :: 0 <= i < |own| ==> c.models[i].model == own[i].model && c.models[i].counts == own[i].counts)
    && c.counts == Tallies(own)
    && IsBar(c.bar, c.counts.inTokens + c.counts.outTokens, largest)
  }

  datatype Field = Requests | InTokens | OutTokens | Streamed | Unreported

  /** One field of the counts, summed over the rows. */
  function Tally(f: Field, rows: seq<Row>): int {
    if rows == [] then 0
    else
      var c := Last(rows).counts;
      Tally(f, Front(rows)) + match f
                              case Requests => c.requests
                              case InTokens => c.inTokens
                              case OutTokens => c.outTokens
                              case Streamed => c.streamed
                              case Unreported => c.unreported
  }

  function Tallies(rows: seq<Row>): Counts {
    Counts(Tally(Requests, rows), Tally(InTokens, rows), Tally(OutTokens, rows), Tally(Streamed, rows),
           Tally(Unreported, rows))
  }

  /** Sums are field by field. */
  lemma {:induction false} SumTallies(rows: seq<Row>)
    ensures Sum(rows) == Tallies(rows)
  {
    if rows != [] { SumTallies(Front(rows)); }
  }

  /** No bar without tokens; a tenth at least with any; else as many whole tenths as the share of the largest. */
  predicate IsBar(bar: int, tokens: int, largest: int) {
    if tokens <= 0 || largest <= 0 then bar == 0
    else if tokens > largest then bar == 100
    else
      && bar % 10 == 0
      && (tokens * 100 < 10 * largest ==> bar == 10)
      && (tokens * 100 >= 10 * largest ==> bar * largest <= tokens * 100 < (bar + 10) * largest)
  }

  lemma BarIsShare(tokens: int, largest: int)
    ensures IsBar(UsageBarClass(tokens, largest), tokens, largest)
  {
    if 0 < tokens && 0 < largest {
      QuotientBounds(tokens * 100, largest);
      QuantizedIsBar(tokens * 100 / largest, tokens, largest);
    }
  }

  lemma QuotientBounds(share: int, d: int)
    requires d > 0
    ensures share / d * d <= share < (share / d + 1) * d
  {
    var q, r := share / d, share % d;
    assert share == q * d + r && 0 <= r < d;
    assert (q + 1) * d == q * d + d;
  }

  lemma QuantizedIsBar(pct: int, tokens: int, largest: int)
    requires tokens > 0 && largest > 0 && pct * largest <= tokens * 100 < (pct + 1) * largest
    ensures IsBar(Quantized(pct), tokens, largest)
  {
    BarSteps(pct, pct - pct % 10, tokens * 100, largest);
    assert tokens > largest ==> tokens * 100 > 100 * largest;
  }

  lemma BarSteps(pct: int, low: int, share: int, largest: int)
    requires largest > 0 && pct * largest <= share < (pct + 1) * largest && low <= pct < low + 10
    ensures low * largest <= share < (low + 10) * largest
    ensures share < 10 * largest ==> pct < 10
    ensures share >= 10 * largest ==> pct >= 10
    ensures share <= 100 * largest ==> pct <= 100
    ensures share > 100 * largest ==> pct >= 100
  {
    DivisionOrder(low, pct, largest);
    DivisionOrder(pct + 1, low + 10, largest);
    if pct >= 10 { DivisionOrder(10, pct, largest); } else { DivisionOrder(pct + 1, 10, largest); }
    if pct >= 101 { DivisionOrder(101, pct, largest); }
    if pct < 100 { DivisionOrder(pct + 1, 100, largest); }
  }

  lemma DivisionOrder(a: int, b: int, d: int)
    requires a <= b && d > 0
    ensures a * d <= b * d
  {
    NonNegative(b - a, d);
    assert (b - a) * d == b * d - a * d;
  }

  lemma LineHolds(rows: seq<Row>, name: Name, largest: int)
    requires RowsOf(rows, name) != []
    ensures IsLineOf(Scaled(ClientOf(name, RowsOf(rows, name)), largest), RowsOf(rows, name), largest)
  {
    RowsOfAreRows(rows, name, 0);
    OwnLineHolds(name, RowsOf(rows, name), largest);
  }

  lemma OwnLineHolds(name: Name, own: seq<Row>, largest: int)
    requires own != [] && own[0].userName == name
    ensures IsLineOf(Scaled(ClientOf(name, own), largest), own, largest)
  {
    var c := Scaled(ClientOf(name, own), largest);
    ModelsAreRows(own);
    SumTallies(own);
    BarIsShare(c.counts.Total(), largest);
    assert c.models == Models(own) && c.counts == Sum(own);
  }

  // ── Nothing is lost or counted twice ─────────────────────────────────────────

  function ClientCounts(rows: seq<Row>): Name -> Counts {
    n => Sum(RowsOf(rows, n))
  }

  function ClientRows(rows: seq<Row>): Name -> int {
    n => |RowsOf(rows, n)|
  }

  lemma {:induction false} TotalsAddUp(rows: seq<Row>)
    ensures SumBy(ClientCounts(rows), Names(rows)) == Sum(rows)
  {
    if rows != [] {
      var before, r := Front(rows), Last(rows);
      TotalsAddUp(before);
      assert rows == before + [r];
      JoinsUnknown(before, r);
      OneMoreRow(before, r);
      SumByGrows(ClientCounts(before), ClientCounts(rows), Names(before), r.userName, r.counts);
    }
  }

  lemma {:induction false} RowsAddUp(rows: seq<Row>)
    ensures CountBy(ClientRows(rows), Names(rows)) == |rows|
  {
    if rows != [] {
      var before, r := Front(rows), Last(rows);
      RowsAddUp(before);
      assert rows == before + [r];
      JoinsUnknown(before, r);
      OneMoreRow(before, r);
      CountByGrows(ClientRows(before), ClientRows(rows), Names(before), r.userName);
    }
  }

  lemma JoinsUnknown(rows: seq<Row>, r: Row)
    ensures Names(rows + [r]) == Joining(Names(rows), r.userName) && DistinctNames(Names(rows))
    ensures r.userName !in Names(rows) ==> ClientCounts(rows)(r.userName) == ZERO && ClientRows(rows)(r.userName) == 0
  {
    NamesSnoc(rows, r);
    NamesAreDistinct(rows);
    NamesHaveRows(rows, r.userName);
  }

  /** The panel's totals are the sum over its clients, and every row is listed under exactly one of them. */
  lemma GroupingConserves(rows: seq<Row>)
    ensures SumBy(ClientCounts(rows), Names(rows)) == Sum(rows)
    ensures CountBy(ClientRows(rows), Names(rows)) == |rows|
    ensures forall name, i :: 0 <= i < |RowsOf(rows, name)| ==> RowsOf(rows, name)[i].userName == name
  {
    TotalsAddUp(rows);
    RowsAddUp(rows);
    forall name, i | 0 <= i < |RowsOf(rows, name)| ensures RowsOf(rows, name)[i].userName == name {
      RowsOfAreRows(rows, name, i);
    }
  }

  function Joining(names: seq<Name>, x: Name): seq<Name> {
    if x in names then names else names + [x]
  }

  lemma SumByGrows(f: Name -> Counts, g: Name -> Counts, names: seq<Name>, x: Name, d: Counts)
    requires DistinctNames(names) && (x !in names ==> f(x) == ZERO)
    requires g(x) == f(x).Plus(d) && forall n :: n != x ==> g(n) == f(n)
    ensures SumBy(g, Joining(names, x)) == SumBy(f, names).Plus(d)
  {
    SumByChanges(f, g, names, x, d);
    if x !in names {
      SumBySnoc(g, names, x);
      PlusZero(d);
    }
  }

  lemma PlusZero(d: Counts)
    ensures ZERO.Plus(d) == d
  {
  }

  lemma SumBySnoc(f: Name -> Counts, names: seq<Name>, x: Name)
    ensures SumBy(f, names + [x]) == SumBy(f, names).Plus(f(x))
  {
    assert Front(names + [x]) == names && Last(names + [x]) == x;
  }

  lemma CountBySnoc(f: Name -> int, names: seq<Name>, x: Name)
    ensures CountBy(f, names + [x]) == CountBy(f, names) + f(x)
  {
    assert Front(names + [x]) == names && Last(names + [x]) == x;
  }

  lemma CountByGrows(f: Name -> int, g: Name -> int, names: seq<Name>, x: Name)
    requires DistinctNames(names) && (x !in names ==> f(x) == 0)
    requires g(x) == f(x) + 1 && forall n :: n != x ==> g(n) == f(n)
    ensures CountBy(g, Joining(names, x)) == CountBy(f, names) + 1
  {
    CountByChanges(f, g, names, x);
    if x !in names { CountBySnoc(g, names, x); }
  }

  lemma OneMoreRow(rows: seq<Row>, r: Row)
    ensures ClientCounts(rows + [r])(r.userName) == ClientCounts(rows)(r.userName).Plus(r.counts)
    ensures ClientRows(rows + [r])(r.userName) == ClientRows(rows)(r.userName) + 1
    ensures forall n :: n != r.userName ==> ClientCounts(rows + [r])(n) == ClientCounts(rows)(n)
                                            && ClientRows(rows + [r])(n) == ClientRows(rows)(n)
  {
    RowsOfSnoc(rows, r, r.userName);
    SumSnoc(RowsOf(rows, r.userName), r);
    forall n | n != r.userName ensures RowsOf(rows + [r], n) == RowsOf(rows, n) { RowsOfSnoc(rows, r, n); }
  }

  function SumModels(models: seq<ByModel>): Counts {
    if models == [] then ZERO else SumModels(Front(models)).Plus(Last(models).counts)
  }

  /** A client's own counts are the sum over its models. */
  lemma {:induction false} ClientsAddUp(own: seq<Row>)
    ensures SumModels(Models(own)) == Sum(own)
  {
    if own != [] {
      ClientsAddUp(Front(own));
      assert Front(Models(own)) == Models(Front(own));
    }
  }

  /** A client's models are its rows, one by one. */
  lemma {:induction false} ModelsAreRows(own: seq<Row>)
    ensures |Models(own)| == |own|
    ensures forall i :: 0 <= i < |own| ==> Models(own)[i] == ByModel(own[i].model, own[i].counts)
  {
    if own != [] { ModelsAreRows(Front(own)); }
  }

  // ── The order of clients and models ──────────────────────────────────────────

  predicate Descending(rows: seq<Row>) {
    forall i, j :: 0 <= i < j < |rows| ==> rows[i].counts.Total() >= rows[j].counts.Total()
  }

  lemma {:induction false} RowsOfAreRows(rows: seq<Row>, name: Name, i: nat)
    requires i < |RowsOf(rows, name)|
    ensures RowsOf(rows, name)[i] in rows && RowsOf(rows, name)[i].userName == name
  {
    InFrontOrLast(rows, RowsOf(rows, name)[i]);
    if i < |RowsOf(Front(rows), name)| { RowsOfAreRows(Front(rows), name, i); }
  }

  lemma LastIsLeast(rows: seq<Row>, r: Row)
    requires Descending(rows + [r])
    ensures forall x :: x in rows ==> x.counts.Total() >= r.counts.Total()
  {
    forall x | x in rows ensures x.counts.Total() >= r.counts.Total() {
      var k :| 0 <= k < |rows| && rows[k] == x;
      assert (rows + [r])[k] == x && (rows + [r])[|rows|] == r;
    }
  }

  lemma DescendingFront(rows: seq<Row>, r: Row)
    requires Descending(rows + [r])
    ensures Descending(rows)
  {
    forall i, j | 0 <= i < j < |rows| ensures rows[i].counts.Total() >= rows[j].counts.Total() {
      assert (rows + [r])[i] == rows[i] && (rows + [r])[j] == rows[j];
    }
  }

  /** A client's models are in descending order when the query's rows are. */
  lemma {:induction false} ModelsDescend(rows: seq<Row>, name: Name)
    requires Descending(rows)
    ensures Descending(RowsOf(rows, name))
  {
    if rows != [] {
      var before, r := Front(rows), Last(rows);
      assert rows == before + [r];
      DescendingFront(before, r);
      ModelsDescend(before, name);
      LastIsLeast(before, r);
      var own := RowsOf(before, name);
      forall i | 0 <= i < |own| ensures own[i].counts.Total() >= r.counts.Total() { RowsOfAreRows(before, name, i); }
    }
  }

  /** The largest total of a single model of the client, when the rows descend. */
  function Peak(rows: seq<Row>, name: Name): int {
    if RowsOf(rows, name) == [] then 0 else RowsOf(rows, name)[0].counts.Total()
  }

  lemma PeakIsLargest(rows: seq<Row>, name: Name, i: nat)
    requires Descending(rows) && i < |RowsOf(rows, name)|
    ensures RowsOf(rows, name)[i].counts.Total() <= Peak(rows, name)
  {
    ModelsDescend(rows, name);
  }

  predicate PeaksDescend(rows: seq<Row>, names: seq<Name>) {
    forall i, j :: 0 <= i < j < |names| ==> Peak(rows, names[i]) >= Peak(rows, names[j])
  }

  /** Clients come in the order of their largest single model, not of their own total. */
  lemma {:induction false} ClientsDescendByPeak(rows: seq<Row>)
    requires Descending(rows)
    ensures PeaksDescend(rows, Names(rows))
  {
    if rows != [] {
      var before, r := Front(rows), Last(rows);
      assert rows == before + [r];
      DescendingFront(before, r);
      ClientsDescendByPeak(before);
      LastIsLeast(before, r);
      forall i | 0 <= i < |Names(before)|
        ensures Peak(rows, Names(before)[i]) == Peak(before, Names(before)[i]) >= r.counts.Total()
      {
        var name := Names(before)[i];
        assert name in Names(before);
        NamesHaveRows(before, name);
        RowsOfSnoc(before, r, name);
        RowsOfAreRows(before, name, 0);
      }
      NewPeak(before, r);
    }
  }

  lemma NewPeak(rows: seq<Row>, r: Row)
    ensures r.userName !in Names(rows) ==> Peak(rows + [r], r.userName) == r.counts.Total()
    ensures Names(rows + [r]) == Joining(Names(rows), r.userName)
  {
    NamesHaveRows(rows, r.userName);
    RowsOfSnoc(rows, r, r.userName);
    NamesSnoc(rows, r);
  }

  /** So a client with a larger total can come later: a model of 10 goes before two of 8 and 7. */
  lemma TotalsNeedNotDescend(a: Row, b: Row, c: Row)
    requires a.userName != b.userName == c.userName
    requires a.counts == Counts(1, 10, 0, 0, 0)
    requires b.counts == Counts(1, 8, 0, 0, 0) && c.counts == Counts(1, 7, 0, 0, 0)
    ensures Descending([a, b, c]) && Names([a, b, c]) == [a.userName, b.userName]
    ensures TotalOf([a, b, c], a.userName) == 10
    ensures TotalOf([a, b, c], b.userName) == 15
  {
    var rows := [a, b, c];
    NamesOfThree(a, b, c);
    RowsOfThree(a, b, c, a.userName);
    RowsOfThree(a, b, c, b.userName);
    TotalFrom(rows, a.userName, a, []);
    TotalFrom(rows, b.userName, b, [c]);
  }

  lemma TotalFrom(rows: seq<Row>, name: Name, first: Row, rest: seq<Row>)
    requires RowsOf(rows, name) == [first] + rest && |rest| <= 1
    ensures TotalOf(rows, name) == first.counts.Total() + if rest == [] then 0 else rest[0].counts.Total()
  {
    SumOfTwo(first, rest);
  }

  predicate OneRowEach(rows: seq<Row>) {
    forall i, j :: 0 <= i < j < |rows| ==> rows[i].userName != rows[j].userName
  }

  lemma NewNameHasNoRows(rows: seq<Row>, r: Row)
    requires OneRowEach(rows + [r])
    ensures RowsOf(rows, r.userName) == [] && OneRowEach(rows)
  {
    assert (rows + [r])[|rows|] == r && forall i :: 0 <= i < |rows| ==> (rows + [r])[i] == rows[i];
    if RowsOf(rows, r.userName) != [] {
      RowsOfAreRows(rows, r.userName, 0);
    }
  }

  lemma {:induction false} OneRowAtMost(rows: seq<Row>, name: Name)
    requires OneRowEach(rows)
    ensures |RowsOf(rows, name)| <= 1
  {
    if rows != [] {
      var before, r := Front(rows), Last(rows);
      assert rows == before + [r];
      NewNameHasNoRows(before, r);
      OneRowAtMost(before, name);
      RowsOfSnoc(before, r, name);
    }
  }

  lemma OwnRowIsAll(rows: seq<Row>, name: Name)
    requires OneRowEach(rows)
    ensures TotalOf(rows, name) == Peak(rows, name)
  {
    OneRowAtMost(rows, name);
    var own := RowsOf(rows, name);
    if own != [] {
      assert own == [own[0]] + [];
      TotalFrom(rows, name, own[0], []);
    }
  }

  /** When every client has a single row, the order by largest model is the order by total. */
  lemma ClientsDescendByTotalWhenSingle(rows: seq<Row>)
    requires Descending(rows) && OneRowEach(rows)
    ensures forall i, j :: 0 <= i < j < |Names(rows)| ==> TotalOf(rows, Names(rows)[i]) >= TotalOf(rows, Names(rows)[j])
  {
    ClientsDescendByPeak(rows);
    PeaksAreTotals(rows, Names(rows));
  }

  lemma PeaksAreTotals(rows: seq<Row>, names: seq<Name>)
    requires OneRowEach(rows) && PeaksDescend(rows, names)
    ensures forall i, j :: 0 <= i < j < |names| ==> TotalOf(rows, names[i]) >= TotalOf(rows, names[j])
  {
    forall i, j | 0 <= i < j < |names| ensures TotalOf(rows, names[i]) >= TotalOf(rows, names[j]) {
      OwnRowIsAll(rows, names[i]);
      OwnRowIsAll(rows, names[j]);
    }
  }

  lemma NamesOfThree(a: Row, b: Row, c: Row)
    requires a.userName != b.userName == c.userName
    ensures Names([a, b, c]) == [a.userName, b.userName]
  {
    assert [a, b, c] == [] + [a] + [b] + [c];
    NamesSnoc([], a);
    NamesSnoc([] + [a], b);
    NamesSnoc([] + [a] + [b], c);
  }

  lemma SumOfTwo(a: Row, rest: seq<Row>)
    requires |rest| <= 1
    ensures Sum([a] + rest).Total() == a.counts.Total() + if rest == [] then 0 else rest[0].counts.Total()
  {
    SumSnoc([], a);
    assert [] + [a] == [a];
    if rest == [] {
      assert [a] + rest == [a];
    } else {
      assert rest == [rest[0]];
      SumSnoc([a], rest[0]);
    }
  }

  lemma RowsOfThree(a: Row, b: Row, c: Row, name: Name)
    requires a.userName != b.userName == c.userName
    ensures RowsOf([a, b, c], name) ==
      if name == a.userName then [a] + [] else if name == b.userName then [b] + [c] else []
  {
    assert [a, b, c] == [] + [a] + [b] + [c];
    RowsOfSnoc([], a, name);
    RowsOfSnoc([] + [a], b, name);
    RowsOfSnoc([] + [a] + [b], c, name);
  }

  // ── The bars ─────────────────────────────────────────────────────────────────

  lemma BarsAreMonotone(a: int, b: int, max: int)
    requires a <= b
    ensures UsageBarClass(a, max) <= UsageBarClass(b, max)
  {
    if 0 < a && 0 < max {
      DivisionIsMonotone(a * 100, b * 100, max);
      QuantizedIsMonotone(a * 100 / max, b * 100 / max);
    }
  }

  lemma QuantizedIsMonotone(p: int, q: int)
    requires p <= q
    ensures Quantized(p) <= Quantized(q)
  {
  }

  lemma Cancel(d: int, k: int)
    requires d > 0 && d * k < d
    ensures k <= 0
  {
    if k > 0 { NonNegative(d, k - 1); }
  }

  lemma NonNegative(a: int, b: int)
    requires a >= 0 && b >= 0
    ensures a * b >= 0
  {
  }

  lemma LargestIsFull(max: int)
    requires max > 0
    ensures UsageBarClass(max, max) == 100
  {
    var q := max * 100 / max;
    assert max * q <= max * 100 < max * (q + 1);
    Cancel(max, q - 100);
    Cancel(max, 99 - q);
  }

  lemma DivisionIsMonotone(x: int, y: int, d: int)
    requires x <= y && d > 0
    ensures x / d <= y / d
  {
    var p, q := x / d, y / d;
    assert d * p <= x && y < d * q + d;
    assert d * (p - q) == d * p - d * q;
    Cancel(d, p - q);
  }

  /** On a panel with any tokens at all, a client has a bar exactly when it has tokens, every client with the
      largest total has a full one, and there is such a client. */
  lemma PanelBars(rows: seq<Row>)
    ensures forall i :: 0 <= i < |Names(rows)| ==>
      var t := TotalOf(rows, Names(rows)[i]);
      t <= Largest(rows) && (UsageBarClass(t, Largest(rows)) > 0 <==> t > 0)
    ensures forall i :: 0 <= i < |Names(rows)| && TotalOf(rows, Names(rows)[i]) == Largest(rows) > 0 ==>
      UsageBarClass(TotalOf(rows, Names(rows)[i]), Largest(rows)) == 100
    ensures Largest(rows) > 0 ==> exists i :: 0 <= i < |Names(rows)| && TotalOf(rows, Names(rows)[i]) == Largest(rows)
  {
    var f := (n: Name) => TotalOf(rows, n);
    MaxByBounds(f, Names(rows));
    forall i | 0 <= i < |Names(rows)| ensures TotalOf(rows, Names(rows)[i]) <= Largest(rows) {
      assert f(Names(rows)[i]) <= MaxBy(f, Names(rows));
    }
    if Largest(rows) > 0 {
      var i :| 0 <= i < |Names(rows)| && f(Names(rows)[i]) == MaxBy(f, Names(rows));
      LargestIsFull(Largest(rows));
      assert TotalOf(rows, Names(rows)[i]) == Largest(rows);
    }
  }
}
