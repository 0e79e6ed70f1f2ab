/**
 The registry of per-user token buckets. A request looks its bucket up under the registry's lock and
 takes a token after releasing it, so in between the bucket may be evicted, dropped or replaced. The
 two halves are separate steps here, and lists of events are all the interleavings.

 Time is in whole nanoseconds and bucket levels in tokens per minute-nanosecond, which keeps the ideal
 token bucket (burst `limit`, rate `limit` per minute) exact over the integers.
*/
module RateLimiter {
  import opened Prelude

  const MINUTE := 60_000_000_000
  const IDLE_EVICT_AFTER := 30 * MINUTE

  // ── One token bucket ─────────────────────────────────────────────────────────

  /** `level` as of `last`, the time of the last success. */
  datatype Bucket = Bucket(limit: nat, level: int, last: int) {
    function Capacity(): int { limit * MINUTE }

    function LevelAt(now: int): int {
      var level := level + limit * (now - last);
      if level > Capacity() then Capacity() else level
    }

    predicate FullAt(now: int) { LevelAt(now) == Capacity() }

    predicate Sound(now: int) { last <= now && 0 <= level <= Capacity() }
  }

  function NewBucket(limit: nat, now: int): Bucket {
    Bucket(limit, limit * MINUTE, now)
  }

  predicate Admits(b: Bucket, now: int) {
    b.LevelAt(now) >= MINUTE
  }

  /** A refused attempt leaves the bucket as it was. */
  function Taken(b: Bucket, now: int): Bucket {
    if Admits(b, now) then b.(level := b.LevelAt(now) - MINUTE, last := now) else b
  }

  lemma MulGrows(a: nat, x: int, y: int)
    requires x <= y
    ensures a * x <= a * y
  {
    assert a * (y - x) >= 0;
  }

  lemma LevelsStaySound(b: Bucket, now: int)
    requires b.Sound(now)
    ensures Taken(b, now).Sound(now) && Taken(b, now).limit == b.limit
    ensures 0 <= b.LevelAt(now) <= b.Capacity()
  {
    MulGrows(b.limit, 0, now - b.last);
    assert 0 <= b.LevelAt(now);
  }

  /** An empty bucket is full again after one minute. */
  lemma RefillsInAMinute(b: Bucket, now: int)
    requires b.Sound(b.last) && now - b.last >= MINUTE
    ensures b.FullAt(now)
  {
    MulGrows(b.limit, MINUTE, now - b.last);
  }

  function TakenTimes(b: Bucket, n: nat, now: int): Bucket {
    if n == 0 then b else Taken(TakenTimes(b, n - 1, now), now)
  }

  /** A new bucket admits a burst of exactly `limit` requests. */
  lemma {:induction false} BurstIsLimit(limit: nat, n: nat, now: int)
    ensures Admits(TakenTimes(NewBucket(limit, now), n, now), now) <==> n < limit
    ensures n <= limit ==> TakenTimes(NewBucket(limit, now), n, now) == Bucket(limit, limit * MINUTE - n * MINUTE, now)
    ensures n > limit ==> TakenTimes(NewBucket(limit, now), n, now) == Bucket(limit, 0, now)
  {
    if n > 0 { BurstIsLimit(limit, n - 1, now); }
    assert limit * 0 == 0;
  }

  /** However drained a bucket is, requests spaced at the sustained rate are always admitted. */
  lemma SustainedRateIsAdmitted(b: Bucket, now: int)
    requires b.Sound(b.last) && b.limit > 0 && b.limit * (now - b.last) >= MINUTE
    ensures Admits(b, now)
  {
    MulGrows(MINUTE, 1, b.limit);
  }

  predicate Idle(lastUse: int, now: int) {
    lastUse < now - IDLE_EVICT_AFTER
  }

  // ── The registry ─────────────────────────────────────────────────────────────

  class UserLimiter {
    const limit: int
    var bucket: Bucket
    var lastUse: int

    constructor (limit: int, now: int)
      requires limit > 0
      ensures this.limit == limit && bucket == NewBucket(limit, now) && lastUse == now
    {
      this.limit, bucket, lastUse := limit, NewBucket(limit, now), now;
    }

    method Allow(now: int) returns (ok: bool)
      modifies this`bucket
      ensures ok == Admits(old(bucket), now) && bucket == Taken(old(bucket), now)
    {
      ok := bucket.LevelAt(now) - MINUTE >= 0;
      if ok {
        bucket := bucket.(level := bucket.LevelAt(now) - MINUTE, last := now);
      }
    }
  }

  class Registry {
    var m: map<int, UserLimiter>

    constructor ()
      ensures m == map[]
    {
      m := map[];
    }

    /** The part of isAllowed that holds the registry's lock; None when the limit admits nobody. */
    method Acquire(user: int, limit: int, now: int) returns (entry: Option<UserLimiter>)
      modifies this, if user in m then {m[user]} else {}
      ensures limit <= 0 ==> entry.None? && m == old(m)
      ensures limit > 0 ==> entry.Some? && m == old(m)[user := entry.value]
                            && entry.value.limit == limit && entry.value.lastUse == now
      ensures limit > 0 && user in old(m) && old(m)[user].limit == limit ==>
                entry.value == old(m)[user] && entry.value.bucket == old(m[user].bucket)
      ensures limit > 0 && !(user in old(m) && old(m)[user].limit == limit) ==>
                fresh(entry.value) && entry.value.bucket == Bucket(limit, limit * 60_000_000_000, now)
      ensures user in old(m) && old(m)[user].limit != limit ==>
                old(m)[user].bucket == old(m[user].bucket) && old(m)[user].lastUse == old(m[user].lastUse)
    {
      if limit <= 0 {
        return None;
      }
      if !(user in m) || m[user].limit != limit {
        var l := new UserLimiter(limit, now);
        m := m[user := l];
      }
      m[user].lastUse := now;
      entry := Some(m[user]);
    }

    method Drop(user: int)
      modifies this
      ensures m == old(m) - {user}
    {
      m := m - {user};
    }

    method ResetAll()
      modifies this
      ensures m == map[]
    {
      m := map[];
    }

    /** `order` is the order in which the loop happens to visit the users. */
    method SweepIdle(now: int, order: seq<int>)
      requires forall u :: u in m <==> u in order
      requires forall j, k :: 0 <= j < k < |order| ==> order[j] != order[k]
      modifies this
      ensures forall u :: u in m <==> u in old(m) && old(m)[u].lastUse >= now - 1_800_000_000_000
      ensures forall u :: u in m ==> m[u] == old(m)[u]
    {
      var cutoff := now - IDLE_EVICT_AFTER;
      for i := 0 to |order|
        invariant forall u :: u in m <==> u in old(m) && (u in order[..i] ==> !Idle(old(m)[u].lastUse, now))
        invariant forall u :: u in m ==> m[u] == old(m)[u]
      {
        var u: int := order[i];
        assert u !in order[..i];
        if m[u].lastUse < cutoff {
          m := m - {u};
        }
      }
    }
  }

  // ── Runs ─────────────────────────────────────────────────────────────────────

  type User = int
  /** A bucket is named after the request that created it. */
  type CallId = nat

  datatype Entry = Entry(bucket: CallId, limit: int, lastUse: int)

  /** One request: `held` is the bucket its lookup returned, `outcome` its answer once it has one. */
  datatype Call = Call(user: User, entered: int, held: Option<CallId>, outcome: Option<bool>) {
    predicate Pending() { held.Some? && outcome.None? }
  }

  datatype State = State(now: int, registry: map<User, Entry>, buckets: map<CallId, Bucket>, calls: map<CallId, Call>)

  const INIT := State(0, map[], map[], map[])

  datatype Event =
    | Advance(ns: nat)
    | Enter(call: CallId, user: User, limit: int)
    | Decide(call: CallId)
    | Drop(user: User)
    | Reset
    | Sweep

  function Entered(s: State, c: CallId, u: User, limit: int): State {
    if limit <= 0 then s.(calls := s.calls[c := Call(u, s.now, None, Some(false))])
    else if u in s.registry && s.registry[u].limit == limit then
      s.(registry := s.registry[u := s.registry[u].(lastUse := s.now)],
         calls := s.calls[c := Call(u, s.now, Some(s.registry[u].bucket), None)])
    else
      s.(registry := s.registry[u := Entry(c, limit, s.now)],
         buckets := s.buckets[c := NewBucket(limit, s.now)],
         calls := s.calls[c := Call(u, s.now, Some(c), None)])
  }

  function Decided(s: State, c: CallId): State
    requires c in s.calls && s.calls[c].Pending() && s.calls[c].held.value in s.buckets
  {
    var p := s.calls[c].held.value;
    s.(buckets := s.buckets[p := Taken(s.buckets[p], s.now)],
       calls := s.calls[c := s.calls[c].(outcome := Some(Admits(s.buckets[p], s.now)))])
  }

  function Swept(registry: map<User, Entry>, now: int): map<User, Entry> {
    map u | u in registry && !Idle(registry[u].lastUse, now) :: registry[u]
  }

  /** An event that is not possible changes nothing, so every list of events is a run. */
  function Step(s: State, e: Event): State {
    match e
    case Advance(d) => s.(now := s.now + d)
    case Enter(c, u, limit) => if c in s.calls then s else Entered(s, c, u, limit)
    case Decide(c) =>
      if c in s.calls && s.calls[c].Pending() && s.calls[c].held.value in s.buckets then Decided(s, c) else s
    case Drop(u) => s.(registry := s.registry - {u})
    case Reset => s.(registry := map[])
    case Sweep => s.(registry := Swept(s.registry, s.now))
  }

  /** A limit of zero or less refuses at once and leaves no trace in the registry. */
  lemma NoLimitNoRequest(s: State, c: CallId, u: User, limit: int)
    requires c !in s.calls && limit <= 0
    ensures var t := Step(s, Enter(c, u, limit));
            t.calls[c].outcome == Some(false) && t.registry == s.registry && t.buckets == s.buckets
  {
  }

  function Run(s: State, events: seq<Event>): State {
    if events == [] then s else Step(Run(s, events[..|events| - 1]), events[|events| - 1])
  }

  /** How long a request may take between its lookup and its decision. */
  const PATIENCE := IDLE_EVICT_AFTER - MINUTE + 1

  predicate InTime(s: State) {
    forall c :: c in s.calls && s.calls[c].Pending() ==> s.now <= s.calls[c].entered + PATIENCE
  }

  /** No request of the run is ever delayed beyond PATIENCE. */
  predicate PromptRun(s: State, events: seq<Event>) {
    InTime(Run(s, events)) && (events == [] || PromptRun(s, events[..|events| - 1]))
  }

  // ── What holds in every reachable state ──────────────────────────────────────

  predicate EntryOk(s: State, u: User)
    requires u in s.registry
  {
    var e := s.registry[u];
    && e.bucket in s.buckets && s.buckets[e.bucket].limit == e.limit > 0
    && e.bucket in s.calls && s.calls[e.bucket].user == u
    && e.lastUse <= s.now && s.buckets[e.bucket].last <= e.lastUse + PATIENCE
  }

  predicate CallOk(s: State, c: CallId)
    requires c in s.calls
  {
    s.calls[c].Pending() ==>
      var p := s.calls[c].held.value;
      && p in s.buckets && p in s.calls && s.calls[p].user == s.calls[c].user
      && (s.calls[c].user in s.registry && s.registry[s.calls[c].user].bucket == p ==>
            s.calls[c].entered <= s.registry[s.calls[c].user].lastUse)
  }

  predicate BucketOk(s: State, p: CallId)
    requires p in s.buckets
  {
    p in s.calls && s.buckets[p].Sound(s.now)
  }

  predicate Inv(s: State) {
    && (forall u :: u in s.registry ==> EntryOk(s, u))
    && (forall c :: c in s.calls ==> CallOk(s, c))
    && (forall p :: p in s.buckets ==> BucketOk(s, p))
  }

  lemma StepKeepsEntries(s: State, e: Event, u: User)
    requires Inv(s) && InTime(s) && u in Step(s, e).registry
    ensures EntryOk(Step(s, e), u)
  {
    if u in s.registry { assert EntryOk(s, u); }
    if e.Decide? && e.call in s.calls { assert CallOk(s, e.call); }
  }

  lemma StepKeepsCalls(s: State, e: Event, c: CallId)
    requires Inv(s) && c in Step(s, e).calls
    ensures CallOk(Step(s, e), c)
  {
    if c in s.calls { assert CallOk(s, c); }
    if e.Enter? && e.user in s.registry { assert EntryOk(s, e.user); }
    if c in s.calls && s.calls[c].Pending() { assert BucketOk(s, s.calls[c].held.value); }
  }

  lemma StepKeepsBuckets(s: State, e: Event, p: CallId)
    requires Inv(s) && p in Step(s, e).buckets
    ensures BucketOk(Step(s, e), p)
  {
    if p in s.buckets {
      assert BucketOk(s, p);
      LevelsStaySound(s.buckets[p], s.now);
    }
  }

  lemma StepKeepsInv(s: State, e: Event)
    requires Inv(s) && InTime(s)
    ensures Inv(Step(s, e))
  {
    var t := Step(s, e);
    forall u | u in t.registry ensures EntryOk(t, u) { StepKeepsEntries(s, e, u); }
    forall c | c in t.calls ensures CallOk(t, c) { StepKeepsCalls(s, e, c); }
    forall p | p in t.buckets ensures BucketOk(t, p) { StepKeepsBuckets(s, e, p); }
  }

  lemma {:induction false} RunKeepsInv(s: State, events: seq<Event>)
    requires Inv(s) && PromptRun(s, events)
    ensures Inv(Run(s, events)) && InTime(Run(s, events))
    decreases |events|
  {
    if events != [] {
      RunKeepsInv(s, events[..|events| - 1]);
      StepKeepsInv(Run(s, events[..|events| - 1]), events[|events| - 1]);
    }
  }

  /** What makes eviction safe: an idle entry is held by no request, and its bucket has refilled. */
  lemma IdleMeansFull(s: State, u: User)
    requires Inv(s) && InTime(s) && u in s.registry && Idle(s.registry[u].lastUse, s.now)
    ensures s.buckets[s.registry[u].bucket].FullAt(s.now)
    ensures forall c :: c in s.calls && s.calls[c].Pending() ==> s.calls[c].held.value != s.registry[u].bucket
  {
    assert EntryOk(s, u);
    var b := s.buckets[s.registry[u].bucket];
    assert BucketOk(s, s.registry[u].bucket);
    RefillsInAMinute(b, s.now);
    forall c | c in s.calls && s.calls[c].Pending() ensures s.calls[c].held.value != s.registry[u].bucket {
      assert CallOk(s, c);
    }
  }

  // ── Eviction is unobservable ─────────────────────────────────────────────────

  /** The same run in a registry that is never swept. */
  function Unswept(events: seq<Event>): seq<Event> {
    if events == [] then []
    else
      var e := events[|events| - 1];
      Unswept(events[..|events| - 1]) + if e.Sweep? then [] else [e]
  }

  function Unsweeping(n: State, e: Event): State {
    if e.Sweep? then n else Step(n, e)
  }

  lemma {:induction false} UnsweptRun(n: State, events: seq<Event>)
    requires events != []
    ensures Run(n, Unswept(events)) == Unsweeping(Run(n, Unswept(events[..|events| - 1])), events[|events| - 1])
  {
    var before, e := Unswept(events[..|events| - 1]), events[|events| - 1];
    if e.Sweep? {
      assert before + [] == before;
    } else {
      assert (before + [e])[..|before|] == before;
    }
  }

  /** Two buckets that no later attempt can tell apart. */
  predicate Same(a: Bucket, b: Bucket, now: int) {
    a == b || (a.limit == b.limit && a.FullAt(now) && b.FullAt(now))
  }

  /** `twin` maps each bucket in use under sweeping to the one that serves in its place without. */
  type Twin = map<CallId, CallId>

  predicate TwinOk(s: State, n: State, twin: Twin, p: CallId)
    requires p in twin
  {
    p in s.buckets && twin[p] in n.buckets && Same(s.buckets[p], n.buckets[twin[p]], s.now)
  }

  predicate Injective(twin: Twin) {
    forall p, q :: p in twin && q in twin && twin[p] == twin[q] ==> p == q
  }

  predicate CallAgrees(s: State, n: State, twin: Twin, c: CallId) {
    && (c in s.calls <==> c in n.calls)
    && (c in s.calls ==>
          && s.calls[c].(held := None) == n.calls[c].(held := None)
          && (s.calls[c].held.Some? <==> n.calls[c].held.Some?)
          && (s.calls[c].Pending() ==>
               s.calls[c].held.value in twin && twin[s.calls[c].held.value] == n.calls[c].held.value))
  }

  predicate EntryAgrees(s: State, n: State, twin: Twin, u: User) {
    if u in s.registry then
      && u in n.registry && n.registry[u].(bucket := 0) == s.registry[u].(bucket := 0)
      && s.registry[u].bucket in twin && twin[s.registry[u].bucket] == n.registry[u].bucket
    else u in n.registry ==>
      && n.registry[u].bucket in n.buckets && n.buckets[n.registry[u].bucket].FullAt(n.now)
      && forall p :: p in twin ==> twin[p] != n.registry[u].bucket
  }

  ghost predicate Related(s: State, n: State, twin: Twin) {
    && s.now == n.now && Injective(twin)
    && (forall p :: p in twin ==> TwinOk(s, n, twin, p))
    && (forall c :: CallAgrees(s, n, twin, c))
    && (forall u :: EntryAgrees(s, n, twin, u))
  }

  predicate Evicted(s: State, p: CallId) {
    && p in s.calls && s.calls[p].user in s.registry && s.registry[s.calls[p].user].bucket == p
    && Idle(s.registry[s.calls[p].user].lastUse, s.now)
  }

  function NextTwin(s: State, n: State, twin: Twin, e: Event): Twin {
    match e
    case Enter(c, u, limit) =>
      if c !in s.calls && c in Step(s, e).buckets && c !in s.buckets && u in Step(n, e).registry
      then twin[c := Step(n, e).registry[u].bucket] else twin
    case Sweep => map p | p in twin && !Evicted(s, p) :: twin[p]
    case _ => twin
  }

  lemma FullStays(b: Bucket, now: int, later: int)
    requires now <= later && b.FullAt(now)
    ensures b.FullAt(later)
  {
    MulGrows(b.limit, now - b.last, later - b.last);
  }

  lemma SameStays(a: Bucket, b: Bucket, now: int, later: int)
    requires now <= later && Same(a, b, now)
    ensures Same(a, b, later)
  {
    if a != b {
      FullStays(a, now, later);
      FullStays(b, now, later);
    }
  }

  lemma SameDecides(a: Bucket, b: Bucket, now: int)
    requires Same(a, b, now)
    ensures Admits(a, now) == Admits(b, now) && Same(Taken(a, now), Taken(b, now), now)
  {
  }

  lemma AdvanceRelated(s: State, n: State, twin: Twin, d: nat)
    requires Related(s, n, twin)
    ensures Related(Step(s, Advance(d)), Step(n, Advance(d)), twin)
  {
    var s', n' := Step(s, Advance(d)), Step(n, Advance(d));
    forall p | p in twin ensures TwinOk(s', n', twin, p) {
      assert TwinOk(s, n, twin, p);
      SameStays(s.buckets[p], n.buckets[twin[p]], s.now, s'.now);
    }
    forall c ensures CallAgrees(s', n', twin, c) { assert CallAgrees(s, n, twin, c); }
    forall u ensures EntryAgrees(s', n', twin, u) {
      assert EntryAgrees(s, n, twin, u);
      if u in n.registry && u !in s.registry { FullStays(n.buckets[n.registry[u].bucket], n.now, n'.now); }
    }
  }

  lemma ForgetRelated(s: State, n: State, twin: Twin, e: Event)
    requires Related(s, n, twin) && (e.Drop? || e.Reset?)
    ensures Related(Step(s, e), Step(n, e), twin)
  {
    var s', n' := Step(s, e), Step(n, e);
    forall p | p in twin ensures TwinOk(s', n', twin, p) { assert TwinOk(s, n, twin, p); }
    forall c ensures CallAgrees(s', n', twin, c) { assert CallAgrees(s, n, twin, c); }
    forall u ensures EntryAgrees(s', n', twin, u) { assert EntryAgrees(s, n, twin, u); }
  }

  lemma DecideRelated(s: State, n: State, twin: Twin, c: CallId)
    requires Related(s, n, twin)
    ensures Related(Step(s, Decide(c)), Step(n, Decide(c)), twin)
  {
    var s', n' := Step(s, Decide(c)), Step(n, Decide(c));
    assert CallAgrees(s, n, twin, c);
    if c in s.calls && s.calls[c].Pending() {
      var p := s.calls[c].held.value;
      assert TwinOk(s, n, twin, p);
      SameDecides(s.buckets[p], n.buckets[twin[p]], s.now);
    }
    forall p | p in twin ensures TwinOk(s', n', twin, p) { assert TwinOk(s, n, twin, p); }
    forall c ensures CallAgrees(s', n', twin, c) { assert CallAgrees(s, n, twin, c); }
    forall u ensures EntryAgrees(s', n', twin, u) { assert EntryAgrees(s, n, twin, u); }
  }

  /** What a lookup by a new request relies on. */
  predicate CanEnter(s: State, n: State, twin: Twin, e: Event) {
    && e.Enter? && s.now == n.now
    && CallAgrees(s, n, twin, e.call) && EntryAgrees(s, n, twin, e.user)
    && (e.call !in s.calls ==> e.call !in twin && e.call !in s.buckets && e.call !in n.buckets
                               && forall p :: p in twin ==> twin[p] != e.call)
    && (e.user in n.registry ==> EntryOk(n, e.user))
  }

  lemma RelatedCanEnter(s: State, n: State, twin: Twin, e: Event)
    requires Related(s, n, twin) && Inv(s) && Inv(n) && e.Enter?
    ensures CanEnter(s, n, twin, e)
  {
    assert CallAgrees(s, n, twin, e.call) && EntryAgrees(s, n, twin, e.user);
    forall p | p in twin ensures p in s.calls && twin[p] in n.calls {
      assert TwinOk(s, n, twin, p) && BucketOk(s, p) && BucketOk(n, twin[p]);
    }
    if e.call in s.buckets { assert BucketOk(s, e.call); }
    if e.call in n.buckets { assert BucketOk(n, e.call); }
  }

  lemma EnterTwins(s: State, n: State, twin: Twin, e: Event, p: CallId)
    requires CanEnter(s, n, twin, e) && p in NextTwin(s, n, twin, e)
    requires p in twin ==> TwinOk(s, n, twin, p)
    ensures TwinOk(Step(s, e), Step(n, e), NextTwin(s, n, twin, e), p)
  {
  }

  lemma EnterInjective(s: State, n: State, twin: Twin, e: Event)
    requires CanEnter(s, n, twin, e) && Injective(twin)
    ensures Injective(NextTwin(s, n, twin, e))
  {
  }

  lemma EnterCalls(s: State, n: State, twin: Twin, e: Event, c: CallId)
    requires CanEnter(s, n, twin, e) && CallAgrees(s, n, twin, c)
    ensures CallAgrees(Step(s, e), Step(n, e), NextTwin(s, n, twin, e), c)
  {
    if c == e.call { EnteringCall(s, n, twin, e); } else { OtherCall(s, n, twin, e, c); }
  }

  lemma EnteringCall(s: State, n: State, twin: Twin, e: Event)
    requires CanEnter(s, n, twin, e)
    ensures CallAgrees(Step(s, e), Step(n, e), NextTwin(s, n, twin, e), e.call)
  {
    if e.call !in s.calls && e.limit > 0 {
      if e.user in s.registry && s.registry[e.user].limit == e.limit {
        assert Step(s, e).calls[e.call].held == Some(s.registry[e.user].bucket);
        assert Step(n, e).calls[e.call].held == Some(n.registry[e.user].bucket);
      } else {
        assert Step(s, e).calls[e.call].held == Some(e.call);
        assert NextTwin(s, n, twin, e)[e.call] == Step(n, e).registry[e.user].bucket;
      }
    }
  }

  lemma OtherCall(s: State, n: State, twin: Twin, e: Event, c: CallId)
    requires CanEnter(s, n, twin, e) && CallAgrees(s, n, twin, c) && c != e.call
    ensures CallAgrees(Step(s, e), Step(n, e), NextTwin(s, n, twin, e), c)
  {
  }

  lemma EnterEntries(s: State, n: State, twin: Twin, e: Event, u: User)
    requires CanEnter(s, n, twin, e) && EntryAgrees(s, n, twin, u)
    requires u in n.registry ==> EntryOk(n, u)
    ensures EntryAgrees(Step(s, e), Step(n, e), NextTwin(s, n, twin, e), u)
  {
    if u == e.user { EnteringEntry(s, n, twin, e); } else { OtherEntry(s, n, twin, e, u); }
  }

  lemma EnteringEntry(s: State, n: State, twin: Twin, e: Event)
    requires CanEnter(s, n, twin, e)
    ensures EntryAgrees(Step(s, e), Step(n, e), NextTwin(s, n, twin, e), e.user)
  {
  }

  lemma OtherEntry(s: State, n: State, twin: Twin, e: Event, u: User)
    requires CanEnter(s, n, twin, e) && EntryAgrees(s, n, twin, u) && u != e.user
    requires u in n.registry ==> EntryOk(n, u)
    ensures EntryAgrees(Step(s, e), Step(n, e), NextTwin(s, n, twin, e), u)
  {
  }

  lemma EnterRelated(s: State, n: State, twin: Twin, e: Event)
    requires Related(s, n, twin) && Inv(s) && Inv(n) && e.Enter?
    ensures Related(Step(s, e), Step(n, e), NextTwin(s, n, twin, e))
  {
    var s', n', twin' := Step(s, e), Step(n, e), NextTwin(s, n, twin, e);
    RelatedCanEnter(s, n, twin, e);
    EnterInjective(s, n, twin, e);
    forall p | p in twin' ensures TwinOk(s', n', twin', p) {
      if p in twin { assert TwinOk(s, n, twin, p); }
      EnterTwins(s, n, twin, e, p);
    }
    forall c ensures CallAgrees(s', n', twin', c) { EnterCalls(s, n, twin, e, c); }
    forall u ensures EntryAgrees(s', n', twin', u) {
      if u in n.registry { assert EntryOk(n, u); }
      EnterEntries(s, n, twin, e, u);
    }
  }

  lemma SweepRelated(s: State, n: State, twin: Twin)
    requires Related(s, n, twin) && Inv(s) && InTime(s) && Inv(n) && InTime(n)
    ensures Related(Step(s, Sweep), n, NextTwin(s, n, twin, Sweep))
  {
    var s', twin' := Step(s, Sweep), NextTwin(s, n, twin, Sweep);
    forall p | p in twin' ensures TwinOk(s', n, twin', p) { assert TwinOk(s, n, twin, p); }
    forall c ensures CallAgrees(s', n, twin', c) {
      assert CallAgrees(s, n, twin, c);
      if c in s.calls && s.calls[c].Pending() {
        assert CallOk(s, c);
        if Evicted(s, s.calls[c].held.value) { IdleMeansFull(s, s.calls[c].user); }
      }
    }
    forall u ensures EntryAgrees(s', n, twin', u) {
      assert EntryAgrees(s, n, twin, u);
      if u in s.registry {
        assert EntryOk(s, u);
        if u !in s'.registry {
          assert EntryOk(n, u);
          IdleMeansFull(n, u);
        }
      }
    }
  }

  lemma {:induction false} Simulate(events: seq<Event>) returns (twin: Twin)
    requires PromptRun(INIT, events)
    ensures Related(Run(INIT, events), Run(INIT, Unswept(events)), twin)
    ensures Inv(Run(INIT, Unswept(events)))
    decreases |events|
  {
    if events == [] {
      return map[];
    }
    var before, e := events[..|events| - 1], events[|events| - 1];
    twin := Simulate(before);
    var s, n := Run(INIT, before), Run(INIT, Unswept(before));
    RunKeepsInv(INIT, before);
    UnsweptRun(INIT, events);
    RelatedInTime(s, n, twin);
    StepKeepsInv(n, e);
    match e {
      case Advance(d) => AdvanceRelated(s, n, twin, d);
      case Enter(_, _, _) => EnterRelated(s, n, twin, e);
      case Decide(c) => DecideRelated(s, n, twin, c);
      case Sweep => SweepRelated(s, n, twin);
      case _ => ForgetRelated(s, n, twin, e);
    }
    twin := NextTwin(s, n, twin, e);
  }

  lemma RelatedInTime(s: State, n: State, twin: Twin)
    requires Related(s, n, twin) && InTime(s)
    ensures InTime(n)
  {
    forall c | c in n.calls && n.calls[c].Pending() ensures n.now <= n.calls[c].entered + PATIENCE {
      assert CallAgrees(s, n, twin, c);
    }
  }

  /** However often and whenever idle limiters are evicted, every request gets the answer it would get from
      a registry that never evicts, provided no request is delayed by more than 29 minutes (and a
      nanosecond) between its lookup and its decision. */
  lemma SweepsAreUnobservable(events: seq<Event>, c: CallId)
    requires PromptRun(INIT, events)
    ensures var swept, unswept := Run(INIT, events), Run(INIT, Unswept(events));
            (c in swept.calls <==> c in unswept.calls)
            && (c in swept.calls ==> swept.calls[c].outcome == unswept.calls[c].outcome)
  {
    var twin := Simulate(events);
    assert CallAgrees(Run(INIT, events), Run(INIT, Unswept(events)), twin, c);
  }

  /** The delay bound is tight: one nanosecond more, and an eviction hands out a token too many. */
  function Delayed(): seq<Event> {
    [Enter(0, 7, 1), Advance(PATIENCE + 1), Decide(0), Advance(MINUTE - 1)]
  }

  function AfterDelay(): State {
    State(PATIENCE + MINUTE, map[7 := Entry(0, 1, 0)], map[0 := Bucket(1, 0, PATIENCE + 1)],
          map[0 := Call(7, 0, Some(0), Some(true))])
  }

  function Waiting(now: int): State {
    State(now, map[7 := Entry(0, 1, 0)], map[0 := NewBucket(1, 0)], map[0 := Call(7, 0, Some(0), None)])
  }

  lemma FirstEnters()
    ensures Step(INIT, Enter(0, 7, 1)) == Waiting(0)
  {
    var none: map<User, Entry> := map[];
    assert none[7 := Entry(0, 1, 0)] == map[7 := Entry(0, 1, 0)];
  }

  lemma FirstDecides()
    ensures Step(Waiting(PATIENCE + 1), Decide(0)) == AfterDelay().(now := PATIENCE + 1)
  {
    var s := Waiting(PATIENCE + 1);
    assert s.buckets[0].LevelAt(s.now) == MINUTE;
    assert Taken(s.buckets[0], s.now) == Bucket(1, 0, PATIENCE + 1);
    assert Decided(s, 0).buckets == map[0 := Bucket(1, 0, PATIENCE + 1)];
  }

  lemma RunFour(s: State, a: Event, b: Event, c: Event, d: Event)
    ensures Run(s, [a, b, c, d]) == Step(Step(Step(Step(s, a), b), c), d)
  {
    var none: seq<Event> := [];
    var one := none + [a];
    var two := one + [b];
    var three := two + [c];
    RunSnoc(s, none, a);
    RunSnoc(s, one, b);
    RunSnoc(s, two, c);
    RunSnoc(s, three, d);
    assert three + [d] == [a, b, c, d];
  }

  lemma RunDelayed()
    ensures Run(INIT, Delayed()) == AfterDelay()
  {
    RunFour(INIT, Enter(0, 7, 1), Advance(PATIENCE + 1), Decide(0), Advance(MINUTE - 1));
    FirstEnters();
    assert Step(Waiting(0), Advance(PATIENCE + 1)) == Waiting(PATIENCE + 1);
    FirstDecides();
  }

  lemma DelayIsTight()
    ensures var late := Run(INIT, Delayed());
            && Step(Step(Step(late, Sweep), Enter(1, 7, 1)), Decide(1)).calls[1].outcome == Some(true)
            && Step(Step(late, Enter(1, 7, 1)), Decide(1)).calls[1].outcome == Some(false)
  {
    RunDelayed();
  }

  lemma RunSnoc(s: State, events: seq<Event>, e: Event)
    ensures Run(s, events + [e]) == Step(Run(s, events), e)
  {
    assert (events + [e])[..|events|] == events;
  }

  // ── How many requests are admitted ───────────────────────────────────────────

  function Admitted(s: State, u: User): set<CallId> {
    set c | c in s.calls && s.calls[c].user == u && s.calls[c].outcome == Some(true)
  }

  /** The level a request of `u` with this limit would find. */
  function Available(s: State, u: User, limit: nat): int {
    if u in s.registry && s.registry[u].limit == limit && s.registry[u].bucket in s.buckets
    then s.buckets[s.registry[u].bucket].LevelAt(s.now) else limit * MINUTE
  }

  /** No request of `u` is still to be decided on any bucket but the current one. */
  predicate Settled(s: State, u: User, limit: nat) {
    forall c :: c in s.calls && s.calls[c].Pending() && s.calls[c].user == u ==>
      u in s.registry && s.registry[u].limit == limit && s.calls[c].held == Some(s.registry[u].bucket)
  }

  /** The user keeps the limit, and nobody drops the user or resets the registry; sweeps and everything
      that concerns other users are unrestricted. */
  predicate Undisturbed(e: Event, u: User, limit: nat) {
    match e
    case Enter(_, v, l) => v == u ==> l == limit
    case Drop(v) => v != u
    case Reset => false
    case _ => true
  }

  /** Tokens already handed out plus tokens still available. */
  function Account(s: State, u: User, limit: nat): int {
    MINUTE * |Admitted(s, u)| + Available(s, u, limit)
  }

  lemma SettledKept(s: State, e: Event, u: User, limit: nat)
    requires Inv(s) && InTime(s) && Settled(s, u, limit) && Undisturbed(e, u, limit)
    ensures Settled(Step(s, e), u, limit)
  {
    if e.Sweep? && u in s.registry && Idle(s.registry[u].lastUse, s.now) { IdleMeansFull(s, u); }
  }

  lemma AdvancePays(s: State, d: nat, u: User, limit: nat)
    requires Inv(s)
    ensures Account(Step(s, Advance(d)), u, limit) <= Account(s, u, limit) + limit * d
  {
    assert Admitted(Step(s, Advance(d)), u) == Admitted(s, u);
    MulGrows(limit, 0, d);
    if u in s.registry && s.registry[u].limit == limit && s.registry[u].bucket in s.buckets {
      LevelGrows(s.buckets[s.registry[u].bucket], s.now, d);
      assert EntryOk(s, u);
    }
  }

  lemma LevelGrows(b: Bucket, now: int, d: nat)
    ensures b.LevelAt(now + d) <= b.LevelAt(now) + b.limit * d
  {
    assert b.limit * (now + d - b.last) == b.limit * (now - b.last) + b.limit * d;
    MulGrows(b.limit, 0, d);
  }

  lemma EnterPays(s: State, e: Event, u: User, limit: nat)
    requires Inv(s) && e.Enter? && Undisturbed(e, u, limit)
    ensures Account(Step(s, e), u, limit) <= Account(s, u, limit)
  {
    assert Admitted(Step(s, e), u) == Admitted(s, u);
    if e.call in s.buckets { assert BucketOk(s, e.call); }
    if u in s.registry { assert EntryOk(s, u); }
  }

  /** Who is admitted by a decision. */
  predicate Wins(s: State, c: CallId, u: User) {
    && c in s.calls && s.calls[c].Pending() && s.calls[c].user == u
    && s.calls[c].held.value in s.buckets && Admits(s.buckets[s.calls[c].held.value], s.now)
  }

  lemma DecideAdmits(s: State, c: CallId, u: User)
    ensures |Admitted(Step(s, Decide(c)), u)| == |Admitted(s, u)| + if Wins(s, c, u) then 1 else 0
  {
    var t := Step(s, Decide(c));
    if Wins(s, c, u) {
      assert Admitted(t, u) == Admitted(s, u) + {c};
    } else {
      assert Admitted(t, u) == Admitted(s, u);
    }
  }

  lemma DecideTakes(s: State, c: CallId, u: User, limit: nat)
    requires Inv(s) && Settled(s, u, limit)
    ensures Available(Step(s, Decide(c)), u, limit) == Available(s, u, limit) - if Wins(s, c, u) then MINUTE else 0
  {
    if c in s.calls && s.calls[c].Pending() {
      assert CallOk(s, c) && BucketOk(s, s.calls[c].held.value);
      if u in s.registry { assert EntryOk(s, u); }
      TakePays(s.buckets[s.calls[c].held.value], s.now);
    }
  }

  lemma DecidePays(s: State, c: CallId, u: User, limit: nat)
    requires Inv(s) && Settled(s, u, limit)
    ensures Account(Step(s, Decide(c)), u, limit) <= Account(s, u, limit)
  {
    DecideAdmits(s, c, u);
    DecideTakes(s, c, u, limit);
  }

  lemma TakePays(b: Bucket, now: int)
    requires b.last <= now
    ensures Taken(b, now).LevelAt(now) == b.LevelAt(now) - if Admits(b, now) then MINUTE else 0
  {
    assert b.limit * 0 == 0;
  }

  lemma SweepPays(s: State, u: User, limit: nat)
    requires Inv(s) && InTime(s)
    ensures Account(Step(s, Sweep), u, limit) <= Account(s, u, limit)
  {
    assert Admitted(Step(s, Sweep), u) == Admitted(s, u);
    if u in s.registry && Idle(s.registry[u].lastUse, s.now) {
      IdleMeansFull(s, u);
      assert EntryOk(s, u);
    }
  }

  lemma StepPays(s: State, e: Event, u: User, limit: nat)
    requires Inv(s) && InTime(s) && Settled(s, u, limit) && Undisturbed(e, u, limit)
    ensures Account(Step(s, e), u, limit) <= Account(s, u, limit) + limit * (Step(s, e).now - s.now)
  {
    if e.Advance? {
      AdvancePays(s, e.ns, u, limit);
    } else {
      InstantStepPays(s, e, u, limit);
      assert limit * (Step(s, e).now - s.now) == 0;
    }
  }

  lemma InstantStepPays(s: State, e: Event, u: User, limit: nat)
    requires Inv(s) && InTime(s) && Settled(s, u, limit) && Undisturbed(e, u, limit) && !e.Advance?
    ensures Step(s, e).now == s.now && Account(Step(s, e), u, limit) <= Account(s, u, limit)
  {
    match e
    case Enter(_, _, _) => EnterPays(s, e, u, limit);
    case Decide(c) => DecidePays(s, c, u, limit);
    case Drop(v) => assert Admitted(Step(s, e), u) == Admitted(s, u);
    case Sweep => SweepPays(s, u, limit);
  }

  lemma {:induction false} RunPays(s: State, during: seq<Event>, u: User, limit: nat)
    requires Inv(s) && PromptRun(s, during) && Settled(s, u, limit)
    requires forall k :: 0 <= k < |during| ==> Undisturbed(during[k], u, limit)
    ensures Settled(Run(s, during), u, limit)
    ensures Account(Run(s, during), u, limit) <= Account(s, u, limit) + limit * (Run(s, during).now - s.now)
    decreases |during|
  {
    if during != [] {
      var before, e := during[..|during| - 1], during[|during| - 1];
      RunPays(s, before, u, limit);
      RunKeepsInv(s, before);
      var m := Run(s, before);
      SettledKept(m, e, u, limit);
      StepPays(m, e, u, limit);
      assert limit * (Step(m, e).now - m.now) + limit * (m.now - s.now) == limit * (Step(m, e).now - s.now);
    }
  }

  /** The limit holds over every window of every prompt run, sweeps included: once no request of the user
      is outstanding on an older bucket, at most `limit` requests plus `limit` per minute are admitted
      while the limit stays and nobody drops the user or resets the registry. */
  lemma AdmissionsAreBounded(before: seq<Event>, during: seq<Event>, u: User, limit: nat)
    requires PromptRun(INIT, before) && PromptRun(Run(INIT, before), during)
    requires Settled(Run(INIT, before), u, limit)
    requires forall k :: 0 <= k < |during| ==> Undisturbed(during[k], u, limit)
    ensures var s := Run(INIT, before);
            var t := Run(s, during);
            MINUTE * (|Admitted(t, u)| - |Admitted(s, u)|) <= limit * MINUTE + limit * (t.now - s.now)
  {
    RunKeepsInv(INIT, before);
    var s := Run(INIT, before);
    RunPays(s, during, u, limit);
    RunKeepsInv(s, during);
    AvailableInRange(s, u, limit);
    AvailableInRange(Run(s, during), u, limit);
  }

  lemma AvailableInRange(s: State, u: User, limit: nat)
    requires Inv(s)
    ensures 0 <= Available(s, u, limit) <= limit * MINUTE
  {
    if u in s.registry {
      assert EntryOk(s, u) && BucketOk(s, s.registry[u].bucket);
      LevelsStaySound(s.buckets[s.registry[u].bucket], s.now);
    }
  }
}
