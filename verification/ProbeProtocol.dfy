/**
 The probe cache and the routing index as one concurrent protocol.

 Every lock-protected section, channel operation and upstream read is one step, so a
 list of events is one interleaving of any number of goroutines. An event that is not
 possible in the current state changes nothing, hence *every* list of events is a run.

 Freshness is measured on a step counter: a probe is as fresh as the step at which its
 upstream read began, no matter which adapter performed it.
*/
module ProbeProtocol {
  import opened Prelude

  const PROBE_TTL := 10_000

  type EngineId = int
  /** One call of probeEngineCached; it also names the channel that call may publish. */
  type CallId = nat
  type BuildId = nat
  type InvalidationId = nat

  datatype ProbeData = ProbeData(status: bool, models: seq<string>)

  /** What one upstream probe yielded, and the step at which it started reading. */
  datatype Read = Read(began: nat, data: ProbeData)

  datatype Sample = Sample(read: Read, expiry: int)

  /** `last` is None exactly while the entry's expiry is the zero time. */
  datatype Entry = Entry(last: Option<Sample>, inflight: Option<CallId>)

  type Cache = map<EngineId, Entry>

  // ── The lock-protected sections, as functions ────────────────────────────────

  datatype Verdict = Wait(on: CallId) | Hit(read: Read) | Own

  function Look(cache: Cache, id: EngineId, now: int): Verdict {
    if id in cache && cache[id].inflight.Some? then Wait(cache[id].inflight.value)
    else if id in cache && cache[id].last.Some? && now < cache[id].last.value.expiry then Hit(cache[id].last.value.read)
    else Own
  }

  /** Publishing the marker keeps whatever stale values the entry already had. */
  function Publish(cache: Cache, id: EngineId, p: CallId): Cache {
    cache[id := Entry(if id in cache then cache[id].last else None, Some(p))]
  }

  function Stored(cache: Cache, id: EngineId, read: Read, now: int): Cache {
    cache[id := Entry(Some(Sample(read, now + PROBE_TTL)), None)]
  }

  /** The shared state that probeCacheMu guards. */
  class ProbeCache {
    var entries: Cache
    var gen: nat

    constructor ()
      ensures entries == map[] && gen == 0
    {
      entries, gen := map[], 0;
    }

    /** First lock section of probeEngineCached: wait, hit, or own the refresh at `gen`. */
    method LookOrPublish(id: EngineId, now: int, p: CallId) returns (v: Verdict, g: nat)
      modifies this
      ensures v == Look(old(entries), id, now)
      ensures forall q: CallId :: v == Wait(q) <==> id in old(entries) && old(entries)[id].inflight == Some(q)
      ensures forall r :: v == Hit(r) <==>
                id in old(entries) && old(entries)[id].inflight == None && old(entries)[id].last.Some?
                && now < old(entries)[id].last.value.expiry && old(entries)[id].last.value.read == r
      ensures v == Own <==>
                id !in old(entries)
                || (old(entries)[id].inflight == None
                    && (old(entries)[id].last.Some? ==> old(entries)[id].last.value.expiry <= now))
      ensures v != Own ==> entries == old(entries)
      ensures v == Own ==>
                var last := if id in old(entries) then old(entries)[id].last else None;
                entries == old(entries)[id := Entry(last, Some(p))]
      ensures g == gen == old(gen)
    {
      g := gen;
      if id in entries {
        var entry := entries[id];
        if entry.inflight.Some? {
          return Wait(entry.inflight.value), g;
        }
        if entry.last.Some? && now < entry.last.value.expiry {
          return Hit(entry.last.value.read), g;
        }
      }
      var entry := if id in entries then entries[id] else Entry(None, None);
      entry := entry.(inflight := Some(p));
      entries := entries[id := entry];
      v := Own;
    }

    /** Second lock section of refreshProbe: keep the result unless an invalidation came between. */
    method Store(id: EngineId, g: nat, read: Read, now: int)
      modifies this
      ensures gen == old(gen)
      ensures old(gen) != g ==> entries == old(entries)
      ensures old(gen) == g ==> entries == old(entries)[id := Entry(Some(Sample(read, now + 10_000)), None)]
    {
      if gen == g {
        entries := entries[id := Entry(Some(Sample(read, now + PROBE_TTL)), None)];
      }
    }

    /** The deferred lock section of a refresh that panicked. */
    method Abandon(id: EngineId, g: nat)
      modifies this
      ensures gen == old(gen)
      ensures entries == if old(gen) == g then old(entries) - {id} else old(entries)
    {
      if gen == g {
        entries := entries - {id};
      }
    }

    method Invalidate()
      modifies this
      ensures entries == map[] && gen == old(gen) + 1
    {
      entries := map[];
      gen := gen + 1;
    }

    /** peekProbeData: found only when some probe of this engine has finished. */
    method Peek(id: EngineId, now: int) returns (found: Option<Read>, stale: bool)
      ensures found == if id in entries && entries[id].last.Some? then Some(entries[id].last.value.read) else None
      ensures stale <==> id !in entries || (entries[id].inflight == None && (entries[id].last.Some? ==>
                                                                             entries[id].last.value.expiry <= now))
    {
      if id !in entries {
        return None, true;
      }
      var entry := entries[id];
      if entry.last.None? {
        return None, entry.inflight.None?;
      }
      return Some(entry.last.value.read), entry.inflight.None? && !(now < entry.last.value.expiry);
    }
  }

  function Peeked(cache: Cache, id: EngineId): Option<Read> {
    if id in cache && cache[id].last.Some? then Some(cache[id].last.value.read) else None
  }

  // ── The protocol ─────────────────────────────────────────────────────────────

  /** Where one call of probeEngineCached has got to. */
  datatype Phase =
    | Looking
    | Waiting(on: CallId)
    | Returned(read: Read)                   // served from the cache
    | Owning(gen: nat)                       // marker published, upstream not read yet
    | Probing(gen: nat, began: nat)          // upstream read under way
    | Answered(gen: nat, read: Read)         // read over, cache lock not yet taken
    | Settled(result: Option<Read>)          // stored, rejected or abandoned; channel still open
    | Closed(result: Option<Read>)           // channel closed; None after a panic
  {
    /** The refresh has neither stored, nor been rejected, nor panicked. */
    predicate Unsettled() { Owning? || Probing? || Answered? }
    predicate ChannelOpen() { Unsettled() || Settled? }
    predicate HasChannel() { ChannelOpen() || Closed? }

    /** What the call returned, once it has. */
    function Result(): Option<Read> {
      match this
      case Returned(r) => Some(r)
      case Closed(r) => r
      case _ => None
    }

    /** The upstream read this call holds or is performing, as the step it began. */
    function Began(): Option<nat> {
      match this
      case Returned(r) => Some(r.began)
      case Probing(_, b) => Some(b)
      case Answered(_, r) => Some(r.began)
      case Settled(Some(r)) => Some(r.began)
      case Closed(Some(r)) => Some(r.began)
      case _ => None
    }
  }

  /** `entered` is the step at which the call was made. */
  datatype Call = Call(engine: EngineId, build: Option<BuildId>, entered: nat, phase: Phase, landed: bool)

  /** One index under construction; `landed` is what its byModel map was filled from. */
  datatype Build = Build(gen: nat, landed: seq<Read>)

  /** The published pointer. An invalidated index is a copy sharing the same map, with `built` zeroed. */
  datatype Index = Index(build: BuildId, live: bool)

  /** One call of invalidateProbeCache: when its probe half ran, and whether its route half has. */
  datatype Invalidation = Invalidation(probeAt: nat, routeDone: bool)

  datatype State = State(
    clock: nat,
    cache: Cache, probeGen: nat, calls: map<CallId, Call>,
    routeGen: nat, index: Option<Index>, builds: map<BuildId, Build>,
    invalidations: map<InvalidationId, Invalidation>)

  /** storeRouteIndex's decision: publish only if no route invalidation came since `buildGen` was read. */
  function StoredIndex(index: Option<Index>, gen: nat, b: BuildId, buildGen: nat): Option<Index> {
    if gen == buildGen then Some(Index(b, true)) else index
  }

  /** The published index survives an invalidation, marked stale. */
  function Staled(index: Option<Index>): Option<Index> {
    match index
    case None => None
    case Some(i) => Some(i.(live := false))
  }

  /** The shared state that routeMu guards. */
  class RoutePointer {
    var index: Option<Index>
    var gen: nat

    constructor ()
      ensures index == None && gen == 0
    {
      index, gen := None, 0;
    }

    method Store(b: BuildId, buildGen: nat)
      modifies this
      ensures gen == old(gen)
      ensures index == if gen == buildGen then Some(Index(b, true)) else old(index)
    {
      if gen == buildGen {
        index := Some(Index(b, true));
      }
    }

    method Invalidate()
      modifies this
      ensures gen == old(gen) + 1
      ensures index == if old(index).None? then None else Some(Index(old(index).value.build, false))
    {
      gen := gen + 1;
      if index.Some? {
        index := Some(index.value.(live := false));
      }
    }
  }

  const INIT := State(0, map[], 0, map[], 0, None, map[], map[])

  /** What the goroutine of one call can do next. */
  datatype Action =
    | LookUp(now: int) | Wake
    | BeginRead | EndRead(data: ProbeData)
    | StoreResult(now: int) | Panic | CloseChannel
    | Land

  datatype Event =
    | Enter(p: CallId, engine: EngineId, build: Option<BuildId>)
    | Act(p: CallId, action: Action)
    | InvalidateProbes(c: InvalidationId)
    | InvalidateRoutes(c: InvalidationId)
    | StartBuild(b: BuildId)
    | PublishIndex(b: BuildId)

  predicate CanAct(s: State, c: Call, a: Action) {
    match a
    case LookUp(_) => c.phase.Looking?
    case Wake => c.phase.Waiting? && c.phase.on in s.calls && !s.calls[c.phase.on].phase.ChannelOpen()
    case BeginRead => c.phase.Owning?
    case EndRead(_) => c.phase.Probing?
    case StoreResult(_) => c.phase.Answered?
    case Panic => c.phase.Probing?
    case CloseChannel => c.phase.Settled?
    case Land => !c.landed && c.build.Some? && c.build.value in s.builds && c.phase.Result().Some?
  }

  predicate Enabled(s: State, e: Event) {
    match e
    case Enter(p, _, b) => p !in s.calls && (b.Some? ==> b.value in s.builds)
    case Act(p, a) => p in s.calls && CanAct(s, s.calls[p], a)
    case InvalidateProbes(c) => c !in s.invalidations
    case InvalidateRoutes(c) => c in s.invalidations && !s.invalidations[c].routeDone
    case StartBuild(b) => b !in s.builds
    case PublishIndex(b) => b in s.builds
  }

  function NextPhase(s: State, c: Call, a: Action): Phase
    requires CanAct(s, c, a)
  {
    match a
    case LookUp(now) =>
      (match Look(s.cache, c.engine, now)
       case Wait(q) => Waiting(q)
       case Hit(r) => Returned(r)
       case Own => Owning(s.probeGen))
    case Wake => Looking
    case BeginRead => Probing(c.phase.gen, s.clock)
    case EndRead(data) => Answered(c.phase.gen, Read(c.phase.began, data))
    case StoreResult(_) => Settled(Some(c.phase.read))
    case Panic => Settled(None)
    case CloseChannel => Closed(c.phase.result)
    case Land => c.phase
  }

  function NextCache(s: State, p: CallId, c: Call, a: Action): Cache
    requires CanAct(s, c, a)
  {
    match a
    case LookUp(now) => if Look(s.cache, c.engine, now).Own? then Publish(s.cache, c.engine, p) else s.cache
    case StoreResult(now) => if s.probeGen == c.phase.gen then Stored(s.cache, c.engine, c.phase.read, now) else s.cache
    case Panic => if s.probeGen == c.phase.gen then s.cache - {c.engine} else s.cache
    case _ => s.cache
  }

  /** A probe that answered appends to its build's map, even after that build was published. */
  function NextBuilds(s: State, c: Call, a: Action): map<BuildId, Build>
    requires CanAct(s, c, a)
  {
    if a.Land? && c.phase.Result().value.data.status
    then s.builds[c.build.value :=
           s.builds[c.build.value].(landed := s.builds[c.build.value].landed + [c.phase.Result().value])]
    else s.builds
  }

  function Effect(s: State, e: Event): State
    requires Enabled(s, e)
  {
    match e
    case Enter(p, id, b) => s.(calls := s.calls[p := Call(id, b, s.clock, Looking, false)])
    case Act(p, a) =>
      var c := s.calls[p];
      s.(cache := NextCache(s, p, c, a),
         calls := s.calls[p := c.(phase := NextPhase(s, c, a), landed := c.landed || a.Land?)],
         builds := NextBuilds(s, c, a))
    case InvalidateProbes(c) =>
      s.(cache := map[], probeGen := s.probeGen + 1,
         invalidations := s.invalidations[c := Invalidation(s.clock, false)])
    case InvalidateRoutes(c) =>
      s.(routeGen := s.routeGen + 1,
         index := Staled(s.index),
         invalidations := s.invalidations[c := s.invalidations[c].(routeDone := true)])
    case StartBuild(b) => s.(builds := s.builds[b := Build(s.routeGen, [])])
    case PublishIndex(b) =>
      s.(index := StoredIndex(s.index, s.routeGen, b, s.builds[b].gen))
  }

  function Step(s: State, e: Event): State {
    (if Enabled(s, e) then Effect(s, e) else s).(clock := s.clock + 1)
  }

  function Run(s: State, events: seq<Event>): State
    decreases |events|
  {
    if events == [] then s else Run(Step(s, events[0]), events[1..])
  }

  // ── What holds in every reachable state ──────────────────────────────────────

  /** Step `t` lies after the probe half of every invalidation so far. */
  predicate AfterAll(s: State, t: nat) {
    forall c :: c in s.invalidations ==> s.invalidations[c].probeAt < t
  }

  /** Step `t` lies after the probe half of every invalidation that has completed. */
  predicate AfterCompleted(s: State, t: nat) {
    forall c :: c in s.invalidations && s.invalidations[c].routeDone ==> s.invalidations[c].probeAt < t
  }

  /** A finished entry is fresh, and a marker names an unsettled refresh of that engine at the
      current generation. */
  predicate EntryOk(s: State, id: EngineId)
    requires id in s.cache
  {
    && (s.cache[id].last.Some? ==> AfterAll(s, s.cache[id].last.value.read.began))
    && (s.cache[id].inflight.Some? ==>
          var p := s.cache[id].inflight.value;
          && p in s.calls && s.calls[p].engine == id
          && s.calls[p].phase.Unsettled() && s.calls[p].phase.gen == s.probeGen)
  }

  /** An unsettled refresh of the current generation holds its engine's marker and reads fresh data. */
  predicate RefreshOk(s: State, p: CallId)
    requires p in s.calls
  {
    var c := s.calls[p];
    c.phase.Unsettled() ==>
      && c.phase.gen <= s.probeGen
      && (c.phase.gen == s.probeGen ==>
            && c.engine in s.cache && s.cache[c.engine].inflight == Some(p)
            && (c.phase.Began().Some? ==> AfterAll(s, c.phase.Began().value)))
  }

  /** A waiter waits on a channel that some call really published. */
  predicate WaiterOk(s: State, p: CallId)
    requires p in s.calls
  {
    var ph := s.calls[p].phase;
    ph.Waiting? ==> ph.on in s.calls && s.calls[ph.on].phase.HasChannel()
  }

  predicate BuildCurrent(s: State, b: BuildId) {
    b in s.builds && s.builds[b].gen == s.routeGen
  }

  /** Whatever a call reads on behalf of a build no route invalidation has overtaken is fresh. */
  predicate BuilderOk(s: State, p: CallId)
    requires p in s.calls
  {
    var c := s.calls[p];
    c.build.Some? ==>
      && c.build.value in s.builds
      && (BuildCurrent(s, c.build.value) && c.phase.Began().Some? ==> AfterCompleted(s, c.phase.Began().value))
  }

  /** Whatever a call reads or is served is newer than every invalidation that preceded the call. */
  predicate CallerOk(s: State, p: CallId)
    requires p in s.calls
  {
    && s.calls[p].entered < s.clock
    && (s.calls[p].phase.Began().Some? ==>
          forall c :: c in s.invalidations && s.invalidations[c].probeAt < s.calls[p].entered ==>
                        s.invalidations[c].probeAt < s.calls[p].phase.Began().value)
  }

  predicate BuildOk(s: State, b: BuildId)
    requires b in s.builds
  {
    && s.builds[b].gen <= s.routeGen
    && (BuildCurrent(s, b) ==>
          forall i :: 0 <= i < |s.builds[b].landed| ==> AfterCompleted(s, s.builds[b].landed[i].began))
  }

  predicate Distinct(s: State, p: CallId, q: CallId)
    requires p in s.calls && q in s.calls
  {
    var a, b := s.calls[p], s.calls[q];
    a.phase.Unsettled() && b.phase.Unsettled() && a.engine == b.engine && a.phase.gen == b.phase.gen ==> p == q
  }

  predicate IndexOk(s: State) {
    s.index.Some? && s.index.value.live ==> BuildCurrent(s, s.index.value.build)
  }

  function Pending(invalidations: map<InvalidationId, Invalidation>): set<InvalidationId> {
    set c | c in invalidations && !invalidations[c].routeDone
  }

  /** Route invalidations never overtake the probe invalidations they belong to. */
  predicate GenerationsOk(s: State) {
    s.probeGen == s.routeGen + |Pending(s.invalidations)|
  }

  predicate Inv(s: State) {
    && (forall id :: id in s.cache ==> EntryOk(s, id))
    && (forall p :: p in s.calls ==> RefreshOk(s, p))
    && (forall p :: p in s.calls ==> WaiterOk(s, p))
    && (forall p :: p in s.calls ==> BuilderOk(s, p))
    && (forall p :: p in s.calls ==> CallerOk(s, p))
    && (forall b :: b in s.builds ==> BuildOk(s, b))
    && (forall p, q :: p in s.calls && q in s.calls ==> Distinct(s, p, q))
    && IndexOk(s) && GenerationsOk(s) && AfterAll(s, s.clock)
  }

  lemma EntryKept(s: State, e: Event, id: EngineId)
    requires id in Step(s, e).cache
    requires id in s.cache ==> EntryOk(s, id)
    requires forall p :: p in s.calls ==> RefreshOk(s, p)
    ensures EntryOk(Step(s, e), id)
  {
    if Enabled(s, e) && e.Act? { assert RefreshOk(s, e.p); }
  }

  lemma RefreshKept(s: State, e: Event, p: CallId)
    requires p in Step(s, e).calls
    requires AfterAll(s, s.clock)
    requires forall p :: p in s.calls ==> RefreshOk(s, p)
    ensures RefreshOk(Step(s, e), p)
  {
    if p in s.calls { assert RefreshOk(s, p); }
    if Enabled(s, e) && e.Act? { assert RefreshOk(s, e.p); }
  }

  lemma WaiterKept(s: State, e: Event, p: CallId)
    requires p in Step(s, e).calls
    requires p in s.calls ==> WaiterOk(s, p)
    requires forall id :: id in s.cache ==> EntryOk(s, id)
    ensures WaiterOk(Step(s, e), p)
  {
  }

  lemma BuilderKept(s: State, e: Event, p: CallId)
    requires p in Step(s, e).calls
    requires p in s.calls ==> BuilderOk(s, p)
    requires AfterAll(s, s.clock)
    requires forall id :: id in s.cache ==> EntryOk(s, id)
    requires forall b :: b in s.builds ==> s.builds[b].gen <= s.routeGen
    ensures BuilderOk(Step(s, e), p)
  {
  }

  lemma CallerKept(s: State, e: Event, p: CallId)
    requires p in Step(s, e).calls
    requires p in s.calls ==> CallerOk(s, p)
    requires AfterAll(s, s.clock)
    requires forall id :: id in s.cache ==> EntryOk(s, id)
    ensures CallerOk(Step(s, e), p)
  {
  }

  lemma BuildKept(s: State, e: Event, b: BuildId)
    requires b in Step(s, e).builds
    requires b in s.builds ==> BuildOk(s, b)
    requires forall p :: p in s.calls ==> BuilderOk(s, p)
    ensures BuildOk(Step(s, e), b)
  {
  }

  /** Only LookUp makes a refresh begin; every other step leaves each call's engine and generation. */
  lemma RefreshesBeginInLookUp(s: State, e: Event, p: CallId)
    requires p in Step(s, e).calls && Step(s, e).calls[p].phase.Unsettled()
    ensures if e.Act? && e.action.LookUp? && e.p == p && Enabled(s, e)
            then s.calls[p].engine == Step(s, e).calls[p].engine && Step(s, e).calls[p].phase.gen == s.probeGen
                 && Look(s.cache, s.calls[p].engine, e.action.now).Own?
            else p in s.calls && s.calls[p].phase.Unsettled() && s.calls[p].engine == Step(s, e).calls[p].engine
                 && s.calls[p].phase.gen == Step(s, e).calls[p].phase.gen
  {
  }

  lemma DistinctKept(s: State, e: Event, p: CallId, q: CallId)
    requires p in Step(s, e).calls && q in Step(s, e).calls
    requires p in s.calls ==> RefreshOk(s, p)
    requires q in s.calls ==> RefreshOk(s, q)
    requires p in s.calls && q in s.calls ==> Distinct(s, p, q)
    ensures Distinct(Step(s, e), p, q)
  {
    var t := Step(s, e);
    if t.calls[p].phase.Unsettled() && t.calls[q].phase.Unsettled() {
      RefreshesBeginInLookUp(s, e, p);
      RefreshesBeginInLookUp(s, e, q);
    }
  }

  lemma GenerationsKept(s: State, e: Event)
    requires GenerationsOk(s)
    ensures GenerationsOk(Step(s, e))
  {
    if e.InvalidateProbes? && Enabled(s, e) {
      OneMorePending(s.invalidations, e.c, Invalidation(s.clock, false));
    } else if e.InvalidateRoutes? && Enabled(s, e) {
      OneLessPending(s.invalidations, e.c);
    }
  }

  lemma OneMorePending(m: map<InvalidationId, Invalidation>, c: InvalidationId, i: Invalidation)
    requires c !in m && !i.routeDone
    ensures |Pending(m[c := i])| == |Pending(m)| + 1
  {
    assert Pending(m[c := i]) == Pending(m) + {c};
  }

  lemma OneLessPending(m: map<InvalidationId, Invalidation>, c: InvalidationId)
    requires c in m && !m[c].routeDone
    ensures |Pending(m[c := m[c].(routeDone := true)])| == |Pending(m)| - 1
  {
    assert Pending(m[c := m[c].(routeDone := true)]) == Pending(m) - {c};
  }

  lemma IndexKept(s: State, e: Event)
    requires IndexOk(s)
    ensures IndexOk(Step(s, e))
  {
  }

  lemma StepKeepsInv(s: State, e: Event)
    requires Inv(s)
    ensures Inv(Step(s, e))
  {
    var t := Step(s, e);
    forall b | b in s.builds ensures s.builds[b].gen <= s.routeGen { assert BuildOk(s, b); }
    forall id | id in t.cache ensures EntryOk(t, id) { EntryKept(s, e, id); }
    forall p | p in t.calls ensures RefreshOk(t, p) && WaiterOk(t, p) && BuilderOk(t, p) && CallerOk(t, p) {
      RefreshKept(s, e, p);
      WaiterKept(s, e, p);
      BuilderKept(s, e, p);
      CallerKept(s, e, p);
    }
    forall b | b in t.builds ensures BuildOk(t, b) { BuildKept(s, e, b); }
    forall p, q | p in t.calls && q in t.calls ensures Distinct(t, p, q) { DistinctKept(s, e, p, q); }
    GenerationsKept(s, e);
    IndexKept(s, e);
    ClockKept(s, e);
  }

  lemma ClockKept(s: State, e: Event)
    requires AfterAll(s, s.clock)
    ensures AfterAll(Step(s, e), Step(s, e).clock)
  {
  }

  lemma {:induction false} RunKeepsInv(s: State, events: seq<Event>)
    requires Inv(s)
    ensures Inv(Run(s, events))
    decreases |events|
  {
    if events != [] {
      StepKeepsInv(s, events[0]);
      RunKeepsInv(Step(s, events[0]), events[1..]);
    }
  }

  // ── Main results ─────────────────────────────────────────────────────────────

  /** Freshness, over every interleaving: what the cache shows was read after every invalidation so
      far, and what a live index was built from was read after every completed invalidation began. */
  lemma FreshInEveryRun(events: seq<Event>)
    ensures var s := Run(INIT, events);
            && s.routeGen <= s.probeGen
            && (forall id, c :: Peeked(s.cache, id).Some? && c in s.invalidations ==>
                  s.invalidations[c].probeAt < Peeked(s.cache, id).value.began)
            && (s.index.Some? && s.index.value.live ==>
                  && s.index.value.build in s.builds
                  && forall c, i :: c in s.invalidations && s.invalidations[c].routeDone
                                    && 0 <= i < |s.builds[s.index.value.build].landed| ==>
                       s.invalidations[c].probeAt < s.builds[s.index.value.build].landed[i].began)
  {
    RunKeepsInv(INIT, events);
    var s := Run(INIT, events);
    forall id, c | Peeked(s.cache, id).Some? && c in s.invalidations
      ensures s.invalidations[c].probeAt < Peeked(s.cache, id).value.began
    {
      assert EntryOk(s, id);
    }
    if s.index.Some? && s.index.value.live {
      assert BuildOk(s, s.index.value.build);
    }
  }

  /** A caller is never handed data older than an invalidation that preceded its call, even when its
      own refresh is rejected by a later one. */
  lemma CallersSeeFreshData(events: seq<Event>, p: CallId, c: InvalidationId)
    ensures var s := Run(INIT, events);
            p in s.calls && c in s.invalidations && s.calls[p].phase.Result().Some?
            && s.invalidations[c].probeAt < s.calls[p].entered ==>
              s.invalidations[c].probeAt < s.calls[p].phase.Result().value.began
  {
    RunKeepsInv(INIT, events);
    var s := Run(INIT, events);
    if p in s.calls { assert CallerOk(s, p); }
  }

  /** Single flight, over every interleaving: at most one unfinished refresh per engine and
      generation, and a marker in the cache always names one. */
  lemma SingleFlightInEveryRun(events: seq<Event>, p: CallId, q: CallId, id: EngineId)
    ensures var s := Run(INIT, events);
            && (p in s.calls && q in s.calls ==> Distinct(s, p, q))
            && (id in s.cache && s.cache[id].inflight == Some(p) ==>
                  p in s.calls && s.calls[p].engine == id && s.calls[p].phase.Unsettled())
  {
    RunKeepsInv(INIT, events);
    var s := Run(INIT, events);
    if id in s.cache { assert EntryOk(s, id); }
    if p in s.calls && q in s.calls { assert Distinct(s, p, q); }
  }

  /** The next step of the goroutine that owns the open channel `p`. */
  function OwnStep(s: State, p: CallId, now: int, data: ProbeData): Event
    requires p in s.calls && s.calls[p].phase.ChannelOpen()
  {
    match s.calls[p].phase
    case Owning(_) => Act(p, BeginRead)
    case Probing(_, _) => Act(p, EndRead(data))
    case Answered(_, _) => Act(p, StoreResult(now))
    case _ => Act(p, CloseChannel)
  }

  function Remaining(phase: Phase): nat {
    match phase
    case Owning(_) => 4
    case Probing(_, _) => 3
    case Answered(_, _) => 2
    case Settled(_) => 1
    case _ => 0
  }

  predicate ByCall(e: Event, p: CallId) {
    e.Act? && e.p == p && !e.action.Land?
  }

  /** An open channel is always about to be closed: its owner is never blocked, each of its own steps
      (a panic included) brings the close nearer, and nobody else's step can undo that. */
  lemma OpenChannelsClose(s: State, e: Event, p: CallId, now: int, data: ProbeData)
    requires p in s.calls && s.calls[p].phase.ChannelOpen()
    ensures Enabled(s, OwnStep(s, p, now, data))
    ensures p in Step(s, e).calls && Step(s, e).calls[p].phase.HasChannel()
    ensures Enabled(s, e) && ByCall(e, p) ==> Remaining(Step(s, e).calls[p].phase) < Remaining(s.calls[p].phase)
    ensures !ByCall(e, p) ==> Step(s, e).calls[p].phase == s.calls[p].phase
    ensures ByCall(OwnStep(s, p, now, data), p)
  {
  }

  /** Left to itself, the owner closes the channel within four steps. */
  function FinishAlone(s: State, p: CallId, now: int, data: ProbeData): (events: seq<Event>)
    requires p in s.calls && s.calls[p].phase.ChannelOpen()
    ensures |events| <= Remaining(s.calls[p].phase)
    ensures p in Run(s, events).calls && Run(s, events).calls[p].phase.Closed?
    decreases Remaining(s.calls[p].phase)
  {
    var e := OwnStep(s, p, now, data);
    OpenChannelsClose(s, e, p, now, data);
    var t := Step(s, e);
    if t.calls[p].phase.Closed? then [e] else [e] + FinishAlone(t, p, now, data)
  }

  lemma ClosedStays(s: State, e: Event, p: CallId)
    requires p in s.calls && s.calls[p].phase.Closed?
    ensures p in Step(s, e).calls && Step(s, e).calls[p].phase == s.calls[p].phase
  {
  }

  lemma ClosedIsNoMarker(s: State, p: CallId, id: EngineId, now: int)
    requires Inv(s) && p in s.calls && s.calls[p].phase.Closed?
    ensures Look(s.cache, id, now) != Wait(p)
  {
    if id in s.cache { assert EntryOk(s, id); }
  }

  /** A closed channel stays closed, and is never again found as a marker: a woken waiter cannot spin on it. */
  lemma {:induction false} ClosedIsNeverAMarker(s: State, events: seq<Event>, p: CallId, id: EngineId, now: int)
    requires Inv(s) && p in s.calls && s.calls[p].phase.Closed?
    ensures p in Run(s, events).calls && Run(s, events).calls[p].phase == s.calls[p].phase
    ensures Look(Run(s, events).cache, id, now) != Wait(p)
    decreases |events|
  {
    if events == [] {
      ClosedIsNoMarker(s, p, id, now);
    } else {
      StepKeepsInv(s, events[0]);
      ClosedStays(s, events[0], p);
      ClosedIsNeverAMarker(Step(s, events[0]), events[1..], p, id, now);
    }
  }

  /** No waiter is lost: in every reachable state, whoever waits can be woken after at most four steps
      of the refresh it waits for, and then never waits on that channel again. */
  lemma WaitersAreReleased(before: seq<Event>, w: CallId, now: int, data: ProbeData) returns (after: seq<Event>)
    requires w in Run(INIT, before).calls && Run(INIT, before).calls[w].phase.Waiting?
    ensures |after| <= 5
    ensures var s := Run(Run(INIT, before), after);
            && w in s.calls && s.calls[w].phase.Looking?
            && Look(s.cache, s.calls[w].engine, now) != Wait(Run(INIT, before).calls[w].phase.on)
  {
    RunKeepsInv(INIT, before);
    after := ReleaseFrom(Run(INIT, before), w, now, data);
  }

  lemma ReleaseFrom(s: State, w: CallId, now: int, data: ProbeData) returns (after: seq<Event>)
    requires Inv(s) && w in s.calls && s.calls[w].phase.Waiting?
    ensures |after| <= 5
    ensures var t := Run(s, after);
            && w in t.calls && t.calls[w].phase.Looking?
            && Look(t.cache, t.calls[w].engine, now) != Wait(s.calls[w].phase.on)
  {
    assert WaiterOk(s, w);
    var p := s.calls[w].phase.on;
    after := [];
    if s.calls[p].phase.ChannelOpen() {
      after := FinishAlone(s, p, now, data);
      FinishAloneSparesOthers(s, p, now, data, w);
    }
    RunKeepsInv(s, after);
    WokenAfter(s, after, w, now);
    after := after + [Act(w, Wake)];
  }

  lemma WokenAfter(s: State, events: seq<Event>, w: CallId, now: int)
    requires Inv(Run(s, events)) && w in s.calls && s.calls[w].phase.Waiting?
    requires w in Run(s, events).calls && Run(s, events).calls[w] == s.calls[w]
    requires s.calls[w].phase.on in Run(s, events).calls && Run(s, events).calls[s.calls[w].phase.on].phase.Closed?
    ensures var t := Run(s, events + [Act(w, Wake)]);
            && w in t.calls && t.calls[w].phase.Looking?
            && Look(t.cache, t.calls[w].engine, now) != Wait(s.calls[w].phase.on)
  {
    RunConcat(s, events, [Act(w, Wake)]);
    WokenOnce(Run(s, events), w, now);
  }

  lemma WokenOnce(s: State, w: CallId, now: int)
    requires Inv(s) && w in s.calls && s.calls[w].phase.Waiting?
    requires s.calls[w].phase.on in s.calls && s.calls[s.calls[w].phase.on].phase.Closed?
    ensures var t := Run(s, [Act(w, Wake)]);
            && w in t.calls && t.calls[w].phase.Looking?
            && Look(t.cache, t.calls[w].engine, now) != Wait(s.calls[w].phase.on)
  {
    var t := Step(s, Act(w, Wake));
    assert Run(s, [Act(w, Wake)]) == t;
    ClosedIsNoMarker(s, s.calls[w].phase.on, t.calls[w].engine, now);
  }

  lemma {:induction false} FinishAloneSparesOthers(s: State, p: CallId, now: int, data: ProbeData, w: CallId)
    requires p in s.calls && s.calls[p].phase.ChannelOpen() && w in s.calls && w != p
    ensures w in Run(s, FinishAlone(s, p, now, data)).calls
    ensures Run(s, FinishAlone(s, p, now, data)).calls[w] == s.calls[w]
    decreases Remaining(s.calls[p].phase)
  {
    var e := OwnStep(s, p, now, data);
    var t := Step(s, e);
    if !t.calls[p].phase.Closed? {
      FinishAloneSparesOthers(t, p, now, data, w);
    }
  }

  lemma {:induction false} RunConcat(s: State, a: seq<Event>, b: seq<Event>)
    ensures Run(s, a + b) == Run(Run(s, a), b)
    decreases |a|
  {
    if a == [] {
      assert a + b == b;
    } else {
      assert (a + b)[0] == a[0] && (a + b)[1..] == a[1..] + b;
      RunConcat(Step(s, a[0]), a[1..], b);
    }
  }

  // ── A result is served while it is fresh ─────────────────────────────────────

  /** The cache shows this read for the engine, and no refresh that could touch it is under way. */
  predicate Showing(s: State, id: EngineId, read: Read, expiry: int) {
    && id in s.cache && s.cache[id] == Entry(Some(Sample(read, expiry)), None)
    && forall c :: c in s.calls && s.calls[c].phase.Unsettled() && s.calls[c].engine == id ==>
                     s.calls[c].phase.gen != s.probeGen
  }

  /** Every event but an invalidation and a look at this engine that comes when the entry has expired. */
  predicate Spares(s: State, e: Event, id: EngineId, expiry: int) {
    && !e.InvalidateProbes?
    && (e.Act? && e.action.LookUp? && e.p in s.calls && s.calls[e.p].engine == id ==> e.action.now < expiry)
  }

  predicate AllSpare(s: State, events: seq<Event>, id: EngineId, expiry: int)
    decreases |events|
  {
    events == [] || (Spares(s, events[0], id, expiry) && AllSpare(Step(s, events[0]), events[1..], id, expiry))
  }

  lemma StoreShows(s: State, p: CallId, now: int)
    requires Inv(s) && Enabled(s, Act(p, StoreResult(now))) && s.calls[p].phase.gen == s.probeGen
    ensures Showing(Step(s, Act(p, StoreResult(now))), s.calls[p].engine, s.calls[p].phase.read, now + 10_000)
  {
    var t := Step(s, Act(p, StoreResult(now)));
    var id := s.calls[p].engine;
    forall c | c in t.calls && t.calls[c].phase.Unsettled() && t.calls[c].engine == id
      ensures t.calls[c].phase.gen != t.probeGen
    {
      assert c in s.calls && c != p && Distinct(s, c, p);
    }
  }

  lemma ShowingKept(s: State, e: Event, id: EngineId, read: Read, expiry: int)
    requires Showing(s, id, read, expiry) && Spares(s, e, id, expiry)
    requires forall c :: c in s.calls ==> RefreshOk(s, c)
    ensures Showing(Step(s, e), id, read, expiry)
  {
    var t := Step(s, e);
    forall c | c in t.calls && t.calls[c].phase.Unsettled() && t.calls[c].engine == id
      ensures t.calls[c].phase.gen != t.probeGen
    {
      RefreshesBeginInLookUp(s, e, c);
    }
  }

  lemma {:induction false} ShowingLasts(s: State, events: seq<Event>, id: EngineId, read: Read, expiry: int)
    requires Inv(s) && Showing(s, id, read, expiry) && AllSpare(s, events, id, expiry)
    ensures Showing(Run(s, events), id, read, expiry)
    decreases |events|
  {
    if events != [] {
      StepKeepsInv(s, events[0]);
      ShowingKept(s, events[0], id, read, expiry);
      ShowingLasts(Step(s, events[0]), events[1..], id, read, expiry);
    }
  }

  /** After a result was stored and kept at time t, in every run: as long as nobody invalidates the probes or
      looks at that engine at t + 10 seconds or later, every look at it before then returns that very read
      at once, whatever else happens in between. */
  lemma FreshResultIsServed(before: seq<Event>, p: CallId, t: int, between: seq<Event>, q: CallId, now: int)
    ensures var s := Run(INIT, before);
            Enabled(s, Act(p, StoreResult(t))) && s.calls[p].phase.gen == s.probeGen
            && AllSpare(Step(s, Act(p, StoreResult(t))), between, s.calls[p].engine, t + 10_000) ==>
              ServedFrom(Run(Step(s, Act(p, StoreResult(t))), between), q, s.calls[p].engine, now,
                         s.calls[p].phase.read, t)
  {
    RunKeepsInv(INIT, before);
    var s := Run(INIT, before);
    if Enabled(s, Act(p, StoreResult(t))) && s.calls[p].phase.gen == s.probeGen
       && AllSpare(Step(s, Act(p, StoreResult(t))), between, s.calls[p].engine, t + 10_000)
    {
      StepKeepsInv(s, Act(p, StoreResult(t)));
      StoreShows(s, p, t);
      ServedWhileSpared(Step(s, Act(p, StoreResult(t))), between, q, s.calls[p].engine, now, s.calls[p].phase.read, t);
    }
  }

  lemma ServedWhileSpared(s: State, events: seq<Event>, q: CallId, id: EngineId, now: int, read: Read, t: int)
    requires Inv(s) && Showing(s, id, read, t + 10_000) && AllSpare(s, events, id, t + 10_000)
    ensures ServedFrom(Run(s, events), q, id, now, read, t)
  {
    ShowingLasts(s, events, id, read, t + 10_000);
  }

  /** A look of call `q` at this engine before t + 10 seconds returns the read. */
  predicate ServedFrom(s: State, q: CallId, id: EngineId, now: int, read: Read, t: int) {
    q in s.calls && s.calls[q].engine == id && s.calls[q].phase.Looking? && now < t + 10_000 ==>
      Step(s, Act(q, LookUp(now))).calls[q].phase == Returned(read)
  }

  /** While a refresh runs, what was known before keeps showing: only a stored result, a panic or an
      invalidation changes it. */
  lemma RefreshKeepsShowing(s: State, e: Event, id: EngineId, read: Read)
    requires !e.InvalidateProbes? && !(e.Act? && (e.action.StoreResult? || e.action.Panic?))
    requires id in s.cache && s.cache[id].last.Some? && s.cache[id].last.value.read == read
    ensures var t := Step(s, e);
            id in t.cache && t.cache[id].last.Some? && t.cache[id].last.value.read == read
  {
  }

  // ── An index is published while it is current ────────────────────────────────

  lemma {:induction false} GenerationStays(s: State, events: seq<Event>, b: BuildId)
    requires b in s.builds && s.builds[b].gen == s.routeGen
    requires forall i :: 0 <= i < |events| ==> !events[i].InvalidateRoutes?
    ensures b in Run(s, events).builds && Run(s, events).builds[b].gen == Run(s, events).routeGen
    decreases |events|
  {
    if events != [] { GenerationStays(Step(s, events[0]), events[1..], b); }
  }

  /** A build during which no route invalidation came is the index afterwards, and stays it, marked stale,
      through the next invalidation. */
  lemma UndisturbedBuildIsPublished(s: State, b: BuildId, during: seq<Event>, c: InvalidationId)
    requires b !in s.builds && forall i :: 0 <= i < |during| ==> !during[i].InvalidateRoutes?
    ensures var t := Step(Run(Step(s, StartBuild(b)), during), PublishIndex(b));
            && t.index == Some(Index(b, true))
            && (c in t.invalidations && !t.invalidations[c].routeDone ==>
                  Step(t, InvalidateRoutes(c)).index == Some(Index(b, false)))
  {
    GenerationStays(Step(s, StartBuild(b)), during, b);
  }

  /** A probe that answered is added to its build's index, once. */
  lemma AnsweredProbeLands(s: State, p: CallId, r: Read)
    requires p in s.calls && !s.calls[p].landed && s.calls[p].build.Some? && s.calls[p].build.value in s.builds
    requires s.calls[p].phase == Returned(r) || s.calls[p].phase == Closed(Some(r))
    ensures var b, t := s.calls[p].build.value, Step(s, Act(p, Land));
            && b in t.builds && p in t.calls && t.calls[p].landed
            && t.builds[b].landed == (if r.data.status then s.builds[b].landed + [r] else s.builds[b].landed)
            && !Enabled(t, Act(p, Land))
  {
  }

  // ── How long an entry is served ──────────────────────────────────────────────

  /** A step that stored a result for this engine, and when. */
  predicate StoresAt(s: State, e: Event, id: EngineId, expiry: int) {
    e.Act? && e.action.StoreResult? && e.p in s.calls && s.calls[e.p].engine == id && expiry == e.action.now + 10_000
  }

  lemma EngineStays(s: State, e: Event, f: Event, id: EngineId, expiry: int)
    requires StoresAt(s, f, id, expiry)
    ensures StoresAt(Step(s, e), f, id, expiry)
  {
  }

  lemma StampedNow(s: State, e: Event, id: EngineId)
    requires id in Step(s, e).cache && Step(s, e).cache[id].last.Some?
    ensures || StoresAt(Step(s, e), e, id, Step(s, e).cache[id].last.value.expiry)
            || (id in s.cache && s.cache[id].last == Step(s, e).cache[id].last)
  {
  }

  lemma RunSnoc(s: State, events: seq<Event>, e: Event)
    ensures Run(s, events + [e]) == Step(Run(s, events), e)
  {
    RunConcat(s, events, [e]);
    assert Run(Run(s, events), [e]) == Step(Run(s, events), e);
  }

  lemma {:induction false} EntriesAreStamped(events: seq<Event>, id: EngineId) returns (k: nat)
    requires id in Run(INIT, events).cache && Run(INIT, events).cache[id].last.Some?
    ensures k < |events| && StoresAt(Run(INIT, events), events[k], id, Run(INIT, events).cache[id].last.value.expiry)
    decreases |events|
  {
    assert events != [];
    var before, e := events[..|events| - 1], events[|events| - 1];
    assert events == before + [e];
    RunSnoc(INIT, before, e);
    var s := Run(INIT, before);
    StampedNow(s, e, id);
    if id in s.cache && s.cache[id].last == Step(s, e).cache[id].last {
      k := EntriesAreStamped(before, id);
      EngineStays(s, e, events[k], id, s.cache[id].last.value.expiry);
    } else {
      k := |events| - 1;
    }
  }

  /** In every run, whoever is served from the cache is served within 10 seconds of the step that stored
      the result for that engine. */
  lemma ServedWithinTtl(events: seq<Event>, id: EngineId, now: int)
    ensures var s := Run(INIT, events);
            Look(s.cache, id, now).Hit? ==>
              exists k, expiry :: 0 <= k < |events| && StoresAt(s, events[k], id, expiry) && now < expiry
  {
    var s := Run(INIT, events);
    if Look(s.cache, id, now).Hit? {
      var k := EntriesAreStamped(events, id);
      assert StoresAt(s, events[k], id, s.cache[id].last.value.expiry);
    }
  }
}
