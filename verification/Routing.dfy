/**
 Model-aware routing: the index assembled from engine probes, and the verdict of one request. The
 concurrency of builds and invalidations is in ProbeProtocol; here `landed` lists the probes that
 answered before a build ended, in the order in which they took the build's lock.
*/
module Routing {
  import opened Prelude
  import opened Wire

  const ROUTE_INDEX_TTL := 60_000

  type EngineId = int

  datatype Probe = Probe(id: EngineId, status: bool, models: seq<string>)

  /** byModel and probed of one index. */
  datatype Index = Index(byModel: map<string, seq<EngineId>>, probed: bool)

  const EMPTY := Index(map[], false)

  function Listed(m: map<string, seq<EngineId>>, name: string): seq<EngineId> {
    if name in m then m[name] else []
  }

  // ── Assembling an index ──────────────────────────────────────────────────────

  function Added(m: map<string, seq<EngineId>>, names: seq<string>, id: EngineId): map<string, seq<EngineId>> {
    if names == [] then m
    else
      var before := Added(m, Front(names), id);
      before[Last(names) := Listed(before, Last(names)) + [id]]
  }

  function Landed(idx: Index, p: Probe): Index {
    if p.status then Index(Added(idx.byModel, p.models, p.id), true) else idx
  }

  function LandedAll(ps: seq<Probe>): Index {
    if ps == [] then EMPTY else Landed(LandedAll(Front(ps)), Last(ps))
  }

  predicate Ascending(s: seq<int>) {
    forall i, j :: 0 <= i < j < |s| ==> s[i] <= s[j]
  }

  function Inserted(s: seq<int>, x: int): seq<int> {
    if s == [] || Last(s) <= x then s + [x] else Inserted(Front(s), x) + [Last(s)]
  }

  /** What sort.Ints does to a list. */
  function SortInts(s: seq<int>): seq<int> {
    if s == [] then [] else Inserted(SortInts(Front(s)), Last(s))
  }

  function Built(ps: seq<Probe>): Index {
    var all := LandedAll(ps);
    all.(byModel := map name | name in all.byModel :: SortInts(all.byModel[name]))
  }

  /** The lists of the first `n` names visited are sorted, the others untouched. */
  ghost predicate SortedFirst(m: map<string, seq<EngineId>>, before: map<string, seq<EngineId>>,
                              order: seq<string>, n: nat)
    requires n <= |order|
  {
    && m.Keys == before.Keys
    && forall name :: name in m ==> m[name] == if name in order[..n] then SortInts(before[name]) else before[name]
  }

  lemma SortedNext(m: map<string, seq<EngineId>>, before: map<string, seq<EngineId>>, order: seq<string>, n: nat)
    requires VisitsEach(order, before) && n < |order| && SortedFirst(m, before, order, n)
    ensures order[n] in m && SortedFirst(m[order[n] := SortInts(m[order[n]])], before, order, n + 1)
  {
    var name := order[n];
    assert name in order;
    assert order[..n + 1] == order[..n] + [name];
    SortIntsTwice(before[name]);
  }

  lemma AllSorted(m: map<string, seq<EngineId>>, before: map<string, seq<EngineId>>, order: seq<string>)
    requires SortedFirst(m, before, order, |order|) && VisitsEach(order, before)
    ensures m.Keys == before.Keys
    ensures forall name :: name in m ==> m[name] == SortInts(before[name])
  {
    assert order[..|order|] == order;
  }

  /** The loop visits every name of the map, and no other. */
  ghost predicate VisitsEach(order: seq<string>, m: map<string, seq<EngineId>>) {
    forall name :: name in m <==> name in order
  }

  class RouteIndex {
    var byModel: map<string, seq<EngineId>>
    var probed: bool
    var built: Option<int>   // None is the zero time of an invalidated index

    function View(): Index
      reads this
    {
      Index(byModel, probed)
    }

    constructor (now: int)
      ensures View() == EMPTY && built == Some(now)
    {
      byModel, probed, built := map[], false, Some(now);
    }

    /** One probe goroutine's section under the build's lock. */
    method Land(p: Probe)
      modifies this`byModel, this`probed
      ensures View() == Landed(old(View()), p)
    {
      if !p.status {
        return;
      }
      probed := true;
      for i := 0 to |p.models|
        invariant probed && byModel == Added(old(byModel), p.models[..i], p.id)
      {
        var name := p.models[i];
        var ids := if name in byModel then byModel[name] else [];
        byModel := byModel[name := ids + [p.id]];
        assert Front(p.models[..i + 1]) == p.models[..i];
      }
      assert p.models[..|p.models|] == p.models;
    }

    /** `order` is the order in which the loop happens to visit the names. */
    method SortAll(order: seq<string>)
      requires VisitsEach(order, byModel)
      modifies this`byModel
      ensures byModel.Keys == old(byModel).Keys
      ensures forall name :: name in byModel ==> byModel[name] == SortInts(old(byModel)[name])
    {
      byModel := SortLists(byModel, order);
    }
  }

  method SortLists(before: map<string, seq<EngineId>>, order: seq<string>) returns (m: map<string, seq<EngineId>>)
    requires VisitsEach(order, before)
    ensures m.Keys == before.Keys
    ensures forall name :: name in m ==> m[name] == SortInts(before[name])
  {
    m := before;
    for n := 0 to |order|
      invariant SortedFirst(m, before, order, n)
    {
      SortedNext(m, before, order, n);
      var sorted := SortList(m[order[n]]);
      m := m[order[n] := sorted];
    }
    AllSorted(m, before, order);
  }

  method SortList(ids: seq<int>) returns (sorted: seq<int>)
    ensures sorted == SortInts(ids)
  {
    sorted := [];
    for i := 0 to |ids|
      invariant sorted == SortInts(ids[..i])
    {
      sorted := Inserted(sorted, ids[i]);
      assert Front(ids[..i + 1]) == ids[..i];
    }
    assert ids[..|ids|] == ids;
  }

  // ── What an index says, whatever the order of its probes ─────────────────────

  function Count<T(==)>(s: seq<T>, x: T): nat {
    if s == [] then 0 else Count(Front(s), x) + if Last(s) == x then 1 else 0
  }

  /** How often the probes offer `name` on engine `id`. */
  function Total(ps: seq<Probe>, name: string, id: EngineId): nat {
    if ps == [] then 0 else Total(Front(ps), name, id) + Offered(Last(ps), name, id)
  }

  function Offered(p: Probe, name: string, id: EngineId): nat {
    if p.status && p.id == id then Count(p.models, name) else 0
  }

  lemma CountSnoc<T>(s: seq<T>, y: T, x: T)
    ensures Count(s + [y], x) == Count(s, x) + if y == x then 1 else 0
  {
  }

  lemma {:induction false} CountPositive<T>(s: seq<T>, x: T)
    ensures Count(s, x) > 0 <==> x in s
  {
    if s != [] {
      CountPositive(Front(s), x);
      assert s == Front(s) + [Last(s)];
    }
  }

  lemma {:induction false} AddedListed(m: map<string, seq<EngineId>>, names: seq<string>,
                                       owner: EngineId, name: string, id: EngineId)
    ensures Count(Listed(Added(m, names, owner), name), id)
         == Count(Listed(m, name), id) + if owner == id then Count(names, name) else 0
    ensures name in Added(m, names, owner) ==> name in m || Listed(Added(m, names, owner), name) != []
    ensures Listed(m, name) != [] ==> Listed(Added(m, names, owner), name) != []
  {
    if names != [] {
      AddedListed(m, Front(names), owner, name, id);
      CountSnoc(Listed(Added(m, Front(names), owner), name), owner, id);
    }
  }

  lemma {:induction false} LandedListed(ps: seq<Probe>, name: string, id: EngineId)
    ensures Count(Listed(LandedAll(ps).byModel, name), id) == Total(ps, name, id)
    ensures name in LandedAll(ps).byModel ==> Listed(LandedAll(ps).byModel, name) != []
  {
    if ps != [] {
      LandedListed(Front(ps), name, id);
      AddedListed(LandedAll(Front(ps)).byModel, Last(ps).models, Last(ps).id, name, id);
    }
  }

  lemma {:induction false} InsertedCounts(s: seq<int>, x: int, y: int)
    ensures Count(Inserted(s, x), y) == Count(s, y) + if x == y then 1 else 0
  {
    if s == [] || Last(s) <= x {
      CountSnoc(s, x, y);
    } else {
      InsertedCounts(Front(s), x, y);
      CountSnoc(Inserted(Front(s), x), Last(s), y);
    }
  }

  lemma AscendingSnoc(s: seq<int>, x: int)
    requires Ascending(s) && (s == [] || Last(s) <= x)
    ensures Ascending(s + [x]) && Last(s + [x]) == x
  {
    forall i | 0 <= i < |s| ensures s[i] <= x { assert s[i] <= Last(s); }
  }

  lemma {:induction false} InsertedAscends(s: seq<int>, x: int)
    requires Ascending(s)
    ensures Ascending(Inserted(s, x))
    ensures Last(Inserted(s, x)) == if s == [] || Last(s) <= x then x else Last(s)
  {
    if s != [] && Last(s) > x {
      InsertedAscends(Front(s), x);
      AscendingSnoc(Inserted(Front(s), x), Last(s));
    } else {
      AscendingSnoc(s, x);
    }
  }

  lemma {:induction false} SortIntsSorts(s: seq<int>, x: int)
    ensures Ascending(SortInts(s)) && Count(SortInts(s), x) == Count(s, x)
  {
    if s != [] {
      SortIntsSorts(Front(s), x);
      InsertedAscends(SortInts(Front(s)), Last(s));
      InsertedCounts(SortInts(Front(s)), Last(s), x);
    }
  }

  /** Two ascending lists with the same elements as often are the same list. */
  lemma {:induction false} AscendingIsUnique(a: seq<int>, b: seq<int>)
    requires Ascending(a) && Ascending(b) && forall x :: Count(a, x) == Count(b, x)
    ensures a == b
  {
    if a == [] {
      if b != [] { CountPositive(b, Last(b)); }
    } else {
      CountPositive(a, Last(a));
      CountPositive(b, Last(a));
      CountPositive(b, Last(b));
      CountPositive(a, Last(b));
      assert Count(a, Last(a)) == Count(b, Last(a)) && Count(a, Last(b)) == Count(b, Last(b));
      assert Last(a) == Last(b);
      forall x ensures Count(Front(a), x) == Count(Front(b), x) {
        assert Count(a, x) == Count(b, x);
      }
      var front, back := Front(a), Front(b);
      AscendingIsUnique(front, back);
      assert a == front + [Last(a)] && b == back + [Last(b)];
    }
  }

  lemma SortIntsTwice(s: seq<int>)
    ensures SortInts(SortInts(s)) == SortInts(s)
  {
    var once, twice := SortInts(s), SortInts(SortInts(s));
    forall x ensures Count(once, x) == Count(twice, x) { SortIntsSorts(once, x); }
    SortIntsSorts(s, 0);
    SortIntsSorts(once, 0);
    AscendingIsUnique(once, twice);
  }

  lemma {:induction false} TotalSplit(a: seq<Probe>, p: Probe, b: seq<Probe>, name: string, id: EngineId)
    ensures Total(a + [p] + b, name, id) == Total(a + b, name, id) + Offered(p, name, id)
    decreases |b|
  {
    if b == [] {
      assert a + [p] + b == a + [p] && a + b == a;
    } else {
      assert Front(a + [p] + b) == a + [p] + Front(b) && Front(a + b) == a + Front(b);
      TotalSplit(a, p, Front(b), name, id);
    }
  }

  lemma Occurs(qs: seq<Probe>, p: Probe) returns (a: seq<Probe>, b: seq<Probe>)
    requires p in qs
    ensures qs == a + [p] + b
  {
    var j :| 0 <= j < |qs| && qs[j] == p;
    a, b := qs[..j], qs[j + 1..];
  }

  /** Takes the last probe of `ps` out of both lists. */
  lemma TakeOut(ps: seq<Probe>, qs: seq<Probe>) returns (a: seq<Probe>, b: seq<Probe>)
    requires ps != [] && multiset(ps) == multiset(qs)
    ensures qs == a + [Last(ps)] + b && multiset(Front(ps)) == multiset(a + b)
  {
    var p := Last(ps);
    WithoutLast(ps);
    assert p in multiset(qs);
    a, b := Occurs(qs, p);
    WithoutOne(a, b, p);
  }

  lemma WithoutLast(ps: seq<Probe>)
    requires ps != []
    ensures multiset(Front(ps)) == multiset(ps) - multiset{Last(ps)} && Last(ps) in multiset(ps)
  {
    assert ps == Front(ps) + [Last(ps)];
  }

  lemma WithoutOne(a: seq<Probe>, b: seq<Probe>, p: Probe)
    ensures multiset(a + b) == multiset(a + [p] + b) - multiset{p}
  {
    assert multiset(a + [p] + b) == multiset(a) + multiset{p} + multiset(b);
    assert multiset(a + b) == multiset(a) + multiset(b);
  }

  lemma {:induction false} TotalPermutes(ps: seq<Probe>, qs: seq<Probe>, name: string, id: EngineId)
    requires multiset(ps) == multiset(qs)
    ensures Total(ps, name, id) == Total(qs, name, id)
    decreases |ps|
  {
    assert |ps| == |multiset(ps)| == |qs|;
    if ps != [] {
      var a, b := TakeOut(ps, qs);
      TotalPermutes(Front(ps), a + b, name, id);
      TotalSplit(a, Last(ps), b, name, id);
    }
  }

  predicate Answered(ps: seq<Probe>) {
    exists i :: 0 <= i < |ps| && ps[i].status
  }

  lemma {:induction false} ProbedWhenAnswered(ps: seq<Probe>)
    ensures LandedAll(ps).probed <==> Answered(ps)
  {
    if ps != [] {
      ProbedWhenAnswered(Front(ps));
      if Answered(Front(ps)) {
        var i :| 0 <= i < |ps| - 1 && Front(ps)[i].status;
        assert ps[i].status;
      }
    }
  }

  /** The list an index holds for a name: ascending, each engine as often as the probes offered it there. */
  lemma BuiltListed(ps: seq<Probe>, name: string, id: EngineId)
    ensures Ascending(Listed(Built(ps).byModel, name))
    ensures Count(Listed(Built(ps).byModel, name), id) == Total(ps, name, id)
    ensures name in Built(ps).byModel <==> Listed(Built(ps).byModel, name) != []
    ensures Built(ps).probed <==> Answered(ps)
  {
    LandedListed(ps, name, id);
    SortIntsSorts(Listed(LandedAll(ps).byModel, name), id);
    ProbedWhenAnswered(ps);
    if name in LandedAll(ps).byModel {
      SomethingSorted(LandedAll(ps).byModel[name]);
    }
  }

  lemma SomethingSorted(s: seq<int>)
    ensures SortInts(s) == [] <==> s == []
  {
    if s != [] { assert Inserted(SortInts(Front(s)), Last(s)) != []; }
  }

  lemma SameList(ps: seq<Probe>, qs: seq<Probe>, name: string)
    requires multiset(ps) == multiset(qs)
    ensures Listed(Built(ps).byModel, name) == Listed(Built(qs).byModel, name)
    ensures name in Built(ps).byModel <==> name in Built(qs).byModel
  {
    var a, b := Listed(Built(ps).byModel, name), Listed(Built(qs).byModel, name);
    forall id ensures Count(a, id) == Count(b, id) {
      BuiltListed(ps, name, id);
      BuiltListed(qs, name, id);
      TotalPermutes(ps, qs, name, id);
    }
    BuiltListed(ps, name, 0);
    BuiltListed(qs, name, 0);
    AscendingIsUnique(a, b);
  }

  /** An index does not depend on the order in which its probes completed. */
  lemma BuildIgnoresOrder(ps: seq<Probe>, qs: seq<Probe>)
    requires multiset(ps) == multiset(qs)
    ensures Built(ps) == Built(qs)
  {
    var m, n := Built(ps).byModel, Built(qs).byModel;
    forall name: string ensures (name in m <==> name in n) && (name in m ==> m[name] == n[name]) {
      SameList(ps, qs, name);
    }
    assert m == n;
    SameAnswered(ps, qs);
  }

  lemma SameAnswered(ps: seq<Probe>, qs: seq<Probe>)
    requires multiset(ps) == multiset(qs)
    ensures Built(ps).probed == Built(qs).probed
  {
    BuiltListed(ps, "", 0);
    BuiltListed(qs, "", 0);
    if Answered(ps) {
      var i :| 0 <= i < |ps| && ps[i].status;
      assert ps[i] in multiset(qs);
    }
    if Answered(qs) {
      var i :| 0 <= i < |qs| && qs[i].status;
      assert qs[i] in multiset(ps);
    }
  }

  // ── The verdict of one request ───────────────────────────────────────────────

  datatype Config = Config(id: EngineId, kind: string)

  /** The engine list in its configured order, and the ids that have an adapter. */
  datatype Catalog = Catalog(engines: seq<Config>, adapters: set<EngineId>)

  const OLLAMA := "ollama"

  datatype Verdict = Chosen(id: EngineId) | NoEngines | ModelNotFound

  datatype Published = Published(idx: Index, built: Option<int>)

  /** One build: the probes that landed before it ended, the order in which it visits the names to sort
      them, and whether an invalidation moved the generation meanwhile. */
  datatype Landing = Landing(landed: seq<Probe>, order: seq<string>, moved: bool) {
    ghost predicate OrderOk() {
      VisitsEach(order, LandedAll(landed).byModel)
    }
  }

  function FirstWithAdapter(ids: seq<EngineId>, adapters: set<EngineId>): Option<EngineId> {
    if ids == [] then None
    else if ids[0] in adapters then Some(ids[0])
    else FirstWithAdapter(ids[1..], adapters)
  }

  function Found(c: Catalog, idx: Index, model: string): Option<EngineId> {
    FirstWithAdapter(Listed(idx.byModel, model), c.adapters)
  }

  function FirstOllama(engines: seq<Config>, adapters: set<EngineId>): Option<EngineId> {
    if engines == [] then None
    else if engines[0].kind == OLLAMA && engines[0].id in adapters then Some(engines[0].id)
    else FirstOllama(engines[1..], adapters)
  }

  function DefaultEngine(c: Catalog): Option<EngineId> {
    if FirstOllama(c.engines, c.adapters).Some? then FirstOllama(c.engines, c.adapters)
    else if c.engines != [] && c.engines[0].id in c.adapters then Some(c.engines[0].id)
    else None
  }

  function Fallback(c: Catalog): Verdict {
    if DefaultEngine(c).Some? then Chosen(DefaultEngine(c).value) else NoEngines
  }

  predicate UsableOllama(c: Catalog, i: int)
    requires 0 <= i < |c.engines|
  {
    c.engines[i].kind == "ollama" && c.engines[i].id in c.adapters
  }

  /** The default verdict: the first Ollama engine in the configured order that has an adapter; without one the
      first engine of any kind, if that has an adapter; else no engine. */
  predicate IsDefault(c: Catalog, v: Verdict) {
    var ollama := exists i :: 0 <= i < |c.engines| && UsableOllama(c, i);
    var first := c.engines != [] && c.engines[0].id in c.adapters;
    && (ollama ==> exists i :: 0 <= i < |c.engines| && UsableOllama(c, i) && v == Chosen(c.engines[i].id)
                               && forall j :: 0 <= j < i ==> !UsableOllama(c, j))
    && (!ollama && first ==> v == Chosen(c.engines[0].id))
    && (v == NoEngines <==> !ollama && !first)
  }

  lemma {:induction false} FirstOllamaIsFirst(engines: seq<Config>, adapters: set<EngineId>)
    ensures match FirstOllama(engines, adapters)
            case None => forall i :: 0 <= i < |engines| ==> !UsableOllama(Catalog(engines, adapters), i)
            case Some(id) => exists i :: 0 <= i < |engines| && UsableOllama(Catalog(engines, adapters), i)
                               && engines[i].id == id
                               && forall j :: 0 <= j < i ==> !UsableOllama(Catalog(engines, adapters), j)
  {
    if engines != [] {
      var all, rest := Catalog(engines, adapters), Catalog(engines[1..], adapters);
      FirstOllamaIsFirst(engines[1..], adapters);
      forall i | 0 <= i < |engines[1..]| ensures UsableOllama(rest, i) == UsableOllama(all, i + 1) { }
      if UsableOllama(all, 0) {
      } else if FirstOllama(engines[1..], adapters).None? {
        forall i | 0 <= i < |engines| ensures !UsableOllama(all, i) {
          if i > 0 { assert !UsableOllama(rest, i - 1); }
        }
      } else {
        var id := FirstOllama(engines[1..], adapters).value;
        var i :| 0 <= i < |engines[1..]| && UsableOllama(rest, i) && engines[1..][i].id == id
                 && forall j :: 0 <= j < i ==> !UsableOllama(rest, j);
        forall j | 0 <= j < i + 1 ensures !UsableOllama(all, j) {
          if j > 0 { assert !UsableOllama(rest, j - 1); }
        }
        assert UsableOllama(all, i + 1) && engines[i + 1].id == id;
      }
    }
  }

  lemma FallbackIsDefault(c: Catalog)
    ensures IsDefault(c, Fallback(c))
  {
    FirstOllamaIsFirst(c.engines, c.adapters);
    assert Catalog(c.engines, c.adapters) == c;
  }

  predicate Expired(built: Option<int>, now: int) {
    built.None? || now - built.value > ROUTE_INDEX_TTL
  }

  function Decided(c: Catalog, idx: Index, model: string): Verdict {
    if Found(c, idx, model).Some? then Chosen(Found(c, idx, model).value)
    else if !idx.probed then Fallback(c)
    else ModelNotFound
  }

  /** What an index says about a model: the first listed engine that has an adapter, if there is one; else not
      found if any engine had answered for this index, and the default verdict if none had. */
  predicate Follows(c: Catalog, idx: Index, model: string, v: Verdict) {
    var ids := if model in idx.byModel then idx.byModel[model] else [];
    if exists i :: 0 <= i < |ids| && ids[i] in c.adapters then
      exists i :: 0 <= i < |ids| && ids[i] in c.adapters && v == Chosen(ids[i])
                  && forall j :: 0 <= j < i ==> ids[j] !in c.adapters
    else if idx.probed then v == ModelNotFound
    else IsDefault(c, v)
  }

  lemma {:induction false} FirstWithAdapterIsFirst(ids: seq<EngineId>, adapters: set<EngineId>)
    ensures match FirstWithAdapter(ids, adapters)
            case None => forall i :: 0 <= i < |ids| ==> ids[i] !in adapters
            case Some(id) => exists i :: 0 <= i < |ids| && ids[i] == id && id in adapters
                                         && forall j :: 0 <= j < i ==> ids[j] !in adapters
  {
    if ids != [] && ids[0] !in adapters {
      var rest := ids[1..];
      FirstWithAdapterIsFirst(rest, adapters);
      match FirstWithAdapter(rest, adapters)
      case None =>
        forall i | 0 <= i < |ids| ensures ids[i] !in adapters { if i > 0 { assert ids[i] == rest[i - 1]; } }
      case Some(id) =>
        var i :| 0 <= i < |rest| && rest[i] == id && forall j :: 0 <= j < i ==> rest[j] !in adapters;
        assert ids[i + 1] == id;
        forall j | 0 <= j < i + 1 ensures ids[j] !in adapters { if j > 0 { assert ids[j] == rest[j - 1]; } }
    }
  }

  lemma DecidedFollows(c: Catalog, idx: Index, model: string)
    ensures Follows(c, idx, model, Decided(c, idx, model))
  {
    FirstWithAdapterIsFirst(Listed(idx.byModel, model), c.adapters);
    FallbackIsDefault(c);
  }

  /** The index a request consults first: the published one, or one built at `start` when there is none. */
  function Current(p: Option<Published>, first: Landing, start: int): Published {
    if p.Some? then p.value else Published(Built(first.landed), Some(start))
  }

  predicate Rechecks(c: Catalog, model: string, p: Published, now: int) {
    Found(c, p.idx, model).None? && Expired(p.built, now)
  }

  /** A request looks again exactly when nothing usable is listed and the index is invalidated or more than a
      minute old. */
  lemma RechecksExactly(c: Catalog, model: string, p: Published, now: int)
    ensures Rechecks(c, model, p, now) <==>
              && (model in p.idx.byModel ==>
                    forall i :: 0 <= i < |p.idx.byModel[model]| ==> p.idx.byModel[model][i] !in c.adapters)
              && (p.built.None? || now - p.built.value > 60_000)
  {
    FirstWithAdapterIsFirst(Listed(p.idx.byModel, model), c.adapters);
  }

  /** What a request for a named model comes to: `before` and `after` are the published index. */
  predicate Routed(before: Option<Published>, after: Option<Published>, c: Catalog, model: string, start: int, now: int,
                   first: Landing, second: Landing, v: Verdict, consulted: Index, rebuilt: bool)
  {
    var cur := if before.Some? then before.value else Published(Built(first.landed), Some(start));
    var kept := if before.None? && !first.moved then Some(cur) else before;
    var again := Rechecks(c, model, cur, now);
    && v == Decided(c, consulted, model)
    && rebuilt == (before.None? || again)
    && consulted == (if again then Built(second.landed) else cur.idx)
    && after == (if again && !second.moved then Some(Published(Built(second.landed), Some(now))) else kept)
  }

  class Router {
    var index: RouteIndex?

    function View(): Option<Published>
      reads this, index
    {
      if index == null then None else Some(Published(index.View(), index.built))
    }

    constructor ()
      ensures View() == None
    {
      index := null;
    }

    method Build(l: Landing, now: int) returns (idx: RouteIndex)
      requires l.OrderOk()
      ensures fresh(idx) && idx.View() == Built(l.landed) && idx.built == Some(now)
    {
      idx := new RouteIndex(now);
      for i := 0 to |l.landed|
        invariant fresh(idx) && idx.built == Some(now) && idx.View() == LandedAll(l.landed[..i])
      {
        idx.Land(l.landed[i]);
        assert Front(l.landed[..i + 1]) == l.landed[..i];
      }
      assert l.landed[..|l.landed|] == l.landed;
      idx.SortAll(l.order);
      assert idx.byModel == Built(l.landed).byModel;
    }

    /** Publishes the index unless the generation moved while it was being built. */
    method Rebuild(l: Landing, now: int) returns (idx: RouteIndex)
      requires l.OrderOk()
      modifies this
      ensures fresh(idx) && idx.View() == Built(l.landed) && idx.built == Some(now)
      ensures index == if l.moved then old(index) else idx
    {
      idx := Build(l, now);
      if !l.moved {
        index := idx;
      }
    }

    method Lookup(c: Catalog, idx: RouteIndex, model: string) returns (r: Option<EngineId>)
      ensures r == Found(c, idx.View(), model)
    {
      var ids := if model in idx.byModel then idx.byModel[model] else [];
      for i := 0 to |ids|
        invariant FirstWithAdapter(ids, c.adapters) == FirstWithAdapter(ids[i..], c.adapters)
      {
        if ids[i] in c.adapters {
          return Some(ids[i]);
        }
      }
      return None;
    }

    /** `start` is when the request arrives, `now` when its first lookup is over. */
    method Select(c: Catalog, model: string, start: int, now: int, first: Landing, second: Landing)
        returns (v: Verdict, consulted: Index, rebuilt: bool)
      requires first.OrderOk() && second.OrderOk()
      modifies this
      ensures c.engines == [] ==> v == NoEngines
      ensures c.engines != [] && model == "" ==> IsDefault(c, v)
      ensures c.engines == [] || model == "" ==> View() == old(View())
      ensures c.engines != [] && model != "" ==>
                && Routed(old(View()), View(), c, model, start, now, first, second, v, consulted, rebuilt)
                && Follows(c, consulted, model, v)
    {
      FallbackIsDefault(c);
      if |c.engines| == 0 {
        return NoEngines, EMPTY, false;
      }
      if model == "" {
        return Fallback(c), EMPTY, false;
      }
      v, consulted, rebuilt := Route(c, model, start, now, first, second);
      DecidedFollows(c, consulted, model);
    }

    /** currentRouteIndex: builds one only when there is none. */
    method CurrentIndex(start: int, first: Landing) returns (idx: RouteIndex, rebuilt: bool)
      requires first.OrderOk()
      modifies this
      ensures rebuilt == old(View()).None? && (!rebuilt ==> index == old(index) == idx)
      ensures Some(Published(idx.View(), idx.built)) == Some(Current(old(View()), first, start))
      ensures rebuilt ==> fresh(idx) && index == if first.moved then null else idx
    {
      if index == null {
        idx := Rebuild(first, start);
        return idx, true;
      }
      return index, false;
    }

    method Route(c: Catalog, model: string, start: int, now: int, first: Landing, second: Landing)
        returns (v: Verdict, consulted: Index, rebuilt: bool)
      requires first.OrderOk() && second.OrderOk()
      modifies this
      ensures Routed(old(View()), View(), c, model, start, now, first, second, v, consulted, rebuilt)
    {
      var idx;
      idx, rebuilt := CurrentIndex(start, first);
      consulted := idx.View();
      var hit := Lookup(c, idx, model);
      if hit.Some? {
        return Chosen(hit.value), consulted, rebuilt;
      }
      if idx.built.None? || now - idx.built.value > ROUTE_INDEX_TTL {
        idx := Rebuild(second, now);
        rebuilt := true;
        consulted := idx.View();
        hit := Lookup(c, idx, model);
        if hit.Some? {
          return Chosen(hit.value), consulted, rebuilt;
        }
      }
      if !idx.probed {
        return Fallback(c), consulted, rebuilt;
      }
      return ModelNotFound, consulted, rebuilt;
    }
  }

  // ── What a verdict means ─────────────────────────────────────────────────────

  lemma {:induction false} FirstIsLowest(ids: seq<EngineId>, adapters: set<EngineId>)
    requires Ascending(ids)
    ensures match FirstWithAdapter(ids, adapters)
            case Some(id) => id in ids && id in adapters && forall j :: j in ids && j in adapters ==> id <= j
            case None => forall j :: j in ids ==> j !in adapters
  {
    if ids != [] {
      FirstIsLowest(ids[1..], adapters);
      assert ids == [ids[0]] + ids[1..];
      forall j | j in ids ensures ids[0] <= j { }
    }
  }

  /** A probe that answered, reported the model and can still be routed to. */
  predicate Serves(c: Catalog, p: Probe, model: string) {
    p.status && p.id in c.adapters && model in p.models
  }

  predicate SomeServes(c: Catalog, ps: seq<Probe>, model: string, id: EngineId) {
    exists i :: 0 <= i < |ps| && ps[i].id == id && Serves(c, ps[i], model)
  }

  lemma {:induction false} TotalPositive(ps: seq<Probe>, name: string, id: EngineId)
    ensures Total(ps, name, id) > 0
       <==> exists i :: 0 <= i < |ps| && ps[i].id == id && ps[i].status && name in ps[i].models
  {
    if ps != [] {
      TotalPositive(Front(ps), name, id);
      CountPositive(Last(ps).models, name);
      if Total(Front(ps), name, id) > 0 {
        var i :| 0 <= i < |ps| - 1 && Front(ps)[i].id == id && Front(ps)[i].status && name in Front(ps)[i].models;
        assert ps[i] == Front(ps)[i];
      }
      forall i | 0 <= i < |ps| && ps[i].id == id && ps[i].status && name in ps[i].models
        ensures i < |ps| - 1 ==> Total(Front(ps), name, id) > 0
      {
        if i < |ps| - 1 { assert Front(ps)[i] == ps[i]; }
      }
    }
  }

  lemma ListedMeans(c: Catalog, ps: seq<Probe>, model: string, id: EngineId)
    ensures id in Listed(Built(ps).byModel, model) && id in c.adapters <==> SomeServes(c, ps, model, id)
  {
    BuiltListed(ps, model, id);
    CountPositive(Listed(Built(ps).byModel, model), id);
    TotalPositive(ps, model, id);
  }

  /** What any build decides, complete or cut short: the lowest engine id among its probes that serve the
      model; not found exactly when some probe answered and none serves it; else the default engine. */
  lemma BuildDecides(c: Catalog, ps: seq<Probe>, model: string)
    ensures var v := Decided(c, Built(ps), model);
            if exists id :: SomeServes(c, ps, model, id) then
              v.Chosen? && SomeServes(c, ps, model, v.id) && forall id :: SomeServes(c, ps, model, id) ==> v.id <= id
            else
              if Answered(ps) then v == ModelNotFound else IsDefault(c, v)
  {
    FallbackIsDefault(c);
    var ids := Listed(Built(ps).byModel, model);
    BuiltListed(ps, model, 0);
    FirstIsLowest(ids, c.adapters);
    forall id ensures SomeServes(c, ps, model, id) <==> id in ids && id in c.adapters { ListedMeans(c, ps, model, id); }
  }

  /** A request is told that its model does not exist only by an index that some engine answered for, that
      lists the model on no usable engine, and that was within its TTL or built during this request. */
  lemma NotFoundIsCurrent(c: Catalog, model: string, p: Option<Published>,
                          first: Landing, second: Landing, start: int, now: int)
    ensures var cur := Current(p, first, start);
            var consulted := if Rechecks(c, model, cur, now) then Built(second.landed) else cur.idx;
            Decided(c, consulted, model) == ModelNotFound ==>
              && consulted.probed
              && (forall id :: id in Listed(consulted.byModel, model) ==> id !in c.adapters)
              && (p.None? || Rechecks(c, model, cur, now) || !Expired(p.value.built, now))
  {
    var cur := Current(p, first, start);
    NoneFound(Listed(cur.idx.byModel, model), c.adapters);
    NoneFound(Listed(Built(second.landed).byModel, model), c.adapters);
  }

  lemma {:induction false} NoneFound(ids: seq<EngineId>, adapters: set<EngineId>)
    ensures FirstWithAdapter(ids, adapters).None? <==> forall id :: id in ids ==> id !in adapters
  {
    if ids != [] {
      NoneFound(ids[1..], adapters);
      var first: int := ids[0];
      assert ids == [first] + ids[1..];
      assert forall id :: id in ids[1..] ==> id in ids;
    }
  }

  /** The probes of a build that waits for every engine; `world` is what each engine would report. */
  function ProbesOf(c: Catalog, world: EngineId -> Probe): seq<Probe> {
    ProbesFrom(c.engines, c.adapters, world)
  }

  function ProbesFrom(engines: seq<Config>, adapters: set<EngineId>, world: EngineId -> Probe): seq<Probe> {
    if engines == [] then []
    else ProbesFrom(Front(engines), adapters, world)
         + if Last(engines).id in adapters then [world(Last(engines).id)] else []
  }

  predicate Configured(c: Catalog, id: EngineId) {
    id in c.adapters && exists i :: 0 <= i < |c.engines| && c.engines[i].id == id
  }

  lemma {:induction false} ProbesAreConfigured(engines: seq<Config>, adapters: set<EngineId>,
                                               world: EngineId -> Probe, p: Probe)
    ensures p in ProbesFrom(engines, adapters, world)
       <==> exists i :: 0 <= i < |engines| && engines[i].id in adapters && world(engines[i].id) == p
  {
    if engines != [] {
      ProbesAreConfigured(Front(engines), adapters, world, p);
      if p in ProbesFrom(Front(engines), adapters, world) {
        var i :| 0 <= i < |engines| - 1 && Front(engines)[i].id in adapters && world(Front(engines)[i].id) == p;
        assert engines[i] == Front(engines)[i];
      }
      forall i | 0 <= i < |engines| && engines[i].id in adapters && world(engines[i].id) == p
        ensures p in ProbesFrom(engines, adapters, world)
      {
        if i < |engines| - 1 { assert Front(engines)[i] == engines[i]; }
      }
    }
  }

  /** Once every probe has landed, in whatever order, the verdict is a fact about the engines alone: the
      lowest configured engine that is up and holds the model, not found exactly when none does although
      some engine is up, and the default engine in a total outage. */
  lemma FullBuildDecides(c: Catalog, world: EngineId -> Probe, ps: seq<Probe>, model: string)
    requires forall id :: world(id).id == id
    requires multiset(ps) == multiset(ProbesOf(c, world))
    ensures var v := Decided(c, Built(ps), model);
            if exists id :: Configured(c, id) && Serves(c, world(id), model) then
              && v.Chosen? && Configured(c, v.id) && Serves(c, world(v.id), model)
              && forall id :: Configured(c, id) && Serves(c, world(id), model) ==> v.id <= id
            else if exists id :: Configured(c, id) && world(id).status then v == ModelNotFound
            else IsDefault(c, v)
  {
    var all := ProbesOf(c, world);
    BuildIgnoresOrder(ps, all);
    BuildDecides(c, all, model);
    forall id ensures SomeServes(c, all, model, id) <==> Configured(c, id) && Serves(c, world(id), model) {
      WorldServes(c, world, model, id);
    }
    WorldAnswers(c, world);
  }

  lemma WorldServes(c: Catalog, world: EngineId -> Probe, model: string, id: EngineId)
    requires forall id :: world(id).id == id
    ensures SomeServes(c, ProbesOf(c, world), model, id) <==> Configured(c, id) && Serves(c, world(id), model)
  {
    var all := ProbesOf(c, world);
    ProbesAreConfigured(c.engines, c.adapters, world, world(id));
    if SomeServes(c, all, model, id) {
      var i :| 0 <= i < |all| && all[i].id == id && Serves(c, all[i], model);
      ProbesAreConfigured(c.engines, c.adapters, world, all[i]);
    }
    if Configured(c, id) && Serves(c, world(id), model) {
      assert world(id) in all;
    }
  }

  lemma WorldAnswers(c: Catalog, world: EngineId -> Probe)
    requires forall id :: world(id).id == id
    ensures Answered(ProbesOf(c, world)) <==> exists id :: Configured(c, id) && world(id).status
  {
    var all := ProbesOf(c, world);
    if Answered(all) {
      var i :| 0 <= i < |all| && all[i].status;
      ProbesAreConfigured(c.engines, c.adapters, world, all[i]);
      assert Configured(c, all[i].id) && world(all[i].id).status;
    }
    if id :| Configured(c, id) && world(id).status {
      ProbesAreConfigured(c.engines, c.adapters, world, world(id));
      assert world(id) in all;
    }
  }

  /** A build that was cut short: its "not found" is true of the engines exactly when the probe of every
      engine that serves the model had landed. */
  lemma NotFoundIsTrueExactlyWhen(c: Catalog, world: EngineId -> Probe, ps: seq<Probe>, model: string)
    requires forall id :: world(id).id == id
    requires forall i :: 0 <= i < |ps| ==> ps[i] in ProbesOf(c, world)
    requires Decided(c, Built(ps), model) == ModelNotFound
    ensures (forall id :: Configured(c, id) ==> !Serves(c, world(id), model))
       <==> (forall id :: Configured(c, id) && Serves(c, world(id), model) ==> world(id) in ps)
  {
    BuildDecides(c, ps, model);
    forall id | Configured(c, id) && Serves(c, world(id), model) && world(id) in ps ensures false {
      var i :| 0 <= i < |ps| && ps[i] == world(id);
      assert SomeServes(c, ps, model, id);
    }
  }

  /** After a build that timed out, "not found" does not mean that no reachable engine holds the model:
      here engine 2 holds it and is up, but only engine 1 had answered in time. */
  lemma PartialBuildMisses()
    ensures var c := Catalog([Config(1, OLLAMA), Config(2, OLLAMA)], {1, 2});
            var one, two := Probe(1, true, []), Probe(2, true, ["m"]);
            && Decided(c, Built([one]), "m") == ModelNotFound
            && Decided(c, Built([one, two]), "m") == Chosen(2)
  {
    var c := Catalog([Config(1, OLLAMA), Config(2, OLLAMA)], {1, 2});
    var one, two := Probe(1, true, []), Probe(2, true, ["m"]);
    PartialBuild(c, [one], [one, two], "m");
  }

  lemma PartialBuild(c: Catalog, part: seq<Probe>, all: seq<Probe>, model: string)
    requires |part| == 1 && part[0].status && part[0].models == []
    requires |all| == 2 && all[0] == part[0] && Serves(c, all[1], model)
    ensures Decided(c, Built(part), model) == ModelNotFound
    ensures Decided(c, Built(all), model) == Chosen(all[1].id)
  {
    BuildDecides(c, part, model);
    assert Answered(part);
    forall id ensures !SomeServes(c, part, model, id) { }
    BuildDecides(c, all, model);
    assert SomeServes(c, all, model, all[1].id);
    forall id | SomeServes(c, all, model, id) ensures id == all[1].id { }
  }
}
