/**
 Lookups and mutations of users around the cache. A lookup that misses reads the table and fills the
 cache in a later step; a mutation commits and invalidates in a later step; so lists of events are the
 interleavings of any number of both.
*/
module UserCoherence {
  import opened Prelude
  import opened UserCache

  type LookupId = nat
  type MutationId = nat
  type Users = map<int, User>

  /** `version` is the row's version at the read. */
  datatype Lookup = Lookup(key: Key, answer: Option<User>, version: nat, readAt: nat, filled: bool)

  datatype Mutation = Mutation(user: int, committedAt: nat, invalidatedAt: Option<nat>)

  /** History of a cached key: the version of the row its value was read from, the steps at which it was read
      and put into the cache, the time of the latter, and the step of the last use. */
  datatype Origin = Origin(version: nat, readAt: nat, filledAt: nat, filledTime: int, used: nat)

  /** `versions` counts the commits for each user id. */
  datatype State = State(clock: nat, now: int, users: Users, nextId: int, versions: map<int, nat>,
                         cache: seq<Item>, origins: map<Key, Origin>,
                         lookups: map<LookupId, Lookup>, mutations: map<MutationId, Mutation>)

  const INIT := State(0, 0, map[], 1, map[], [], map[], map[], map[])

  datatype Change = SetStatus(status: string) | SetRateLimit(limit: int) | SetKey(hash: string) | Delete

  datatype Event =
    | Advance(ms: nat)
    | Get(key: Key)
    | Read(l: LookupId, key: Key, answer: Option<User>)
    | Fill(l: LookupId)
    | Create(name: string, hash: string, rateLimit: int)
    | Commit(m: MutationId, user: int, change: Change)
    | Invalidate(m: MutationId)

  // ── The users table ──────────────────────────────────────────────────────────

  /** What the query behind `key` returns. */
  predicate Answers(users: Users, key: Key, r: Option<User>) {
    match key
    case Id(id) => r == if id in users then Some(users[id]) else None
    case Api(hash) =>
      if r.Some? then r.value.id in users && users[r.value.id] == r.value && r.value.apiKey == hash
      else forall id :: id in users ==> users[id].apiKey != hash
  }

  predicate HashFree(users: Users, hash: string, except: int) {
    forall id :: id in users && id != except ==> users[id].apiKey != hash
  }

  predicate NameFree(users: Users, name: string) {
    forall id :: id in users ==> users[id].name != name
  }

  function Changed(users: Users, id: int, c: Change): Users {
    if id !in users then users else
    match c
    case SetStatus(x) => users[id := users[id].(status := x)]
    case SetRateLimit(x) => users[id := users[id].(rateLimit := x)]
    case SetKey(x) => users[id := users[id].(apiKey := x)]
    case Delete => users - {id}
  }

  /** An update sets one field of one row; a deletion removes that row; nothing else changes. */
  lemma ChangeIsExact(users: Users, id: int, c: Change)
    ensures var after := Changed(users, id, c);
            && (forall other :: other != id ==> (other in after <==> other in users))
            && (forall other :: other != id && other in users ==> after[other] == users[other])
            && (id in after <==> id in users && !c.Delete?)
            && (id in after ==>
                  match c
                  case SetStatus(x) => after[id] == users[id].(status := x)
                  case SetRateLimit(x) => after[id] == users[id].(rateLimit := x)
                  case SetKey(x) => after[id] == users[id].(apiKey := x)
                  case Delete => true)
  {
  }

  function Version(versions: map<int, nat>, id: int): nat {
    if id in versions then versions[id] else 0
  }

  // ── Runs ─────────────────────────────────────────────────────────────────────

  /** A statement that a UNIQUE column refuses changes nothing and invalidates nothing. */
  predicate Enabled(s: State, e: Event) {
    match e
    case Advance(_) => true
    case Get(_) => true
    case Read(l, key, answer) => l !in s.lookups && Answers(s.users, key, answer)
    case Fill(l) => l in s.lookups && !s.lookups[l].filled
    case Create(name, hash, _) => NameFree(s.users, name) && HashFree(s.users, hash, s.nextId)
    case Commit(m, id, c) => m !in s.mutations && (c.SetKey? ==> HashFree(s.users, c.hash, id))
    case Invalidate(m) => m in s.mutations && s.mutations[m].invalidatedAt.None?
  }

  function Used(s: State, key: Key): map<Key, Origin> {
    if key in s.origins && Answer(s.cache, key, s.now).Some?
    then s.origins[key := s.origins[key].(used := s.clock)] else s.origins
  }

  function Filled(s: State, l: Lookup): State {
    if l.answer.None? then s
    else s.(cache := Put(s.cache, l.key, l.answer.value, s.now),
            origins := s.origins[l.key := Origin(l.version, l.readAt, s.clock, s.now, s.clock)])
  }

  function Effect(s: State, e: Event): State
    requires Enabled(s, e)
  {
    match e
    case Advance(d) => s.(now := s.now + d)
    case Get(key) => s.(cache := Got(s.cache, key, s.now), origins := Used(s, key))
    case Read(l, key, answer) =>
      var version := if answer.Some? then Version(s.versions, answer.value.id) else 0;
      s.(lookups := s.lookups[l := Lookup(key, answer, version, s.clock, false)])
    case Fill(l) => Filled(s, s.lookups[l]).(lookups := s.lookups[l := s.lookups[l].(filled := true)])
    case Create(name, hash, limit) =>
      s.(users := s.users[s.nextId := User(s.nextId, name, hash, "disabled", limit)], nextId := s.nextId + 1)
    case Commit(m, id, c) =>
      s.(users := Changed(s.users, id, c), versions := s.versions[id := Version(s.versions, id) + 1],
         mutations := s.mutations[m := Mutation(id, s.clock, None)])
    case Invalidate(m) =>
      s.(cache := Invalidated(s.cache, s.mutations[m].user),
         mutations := s.mutations[m := s.mutations[m].(invalidatedAt := Some(s.clock))])
  }

  function Step(s: State, e: Event): State {
    (if Enabled(s, e) then Effect(s, e) else s).(clock := s.clock + 1)
  }

  function Run(s: State, events: seq<Event>): State
    decreases |events|
  {
    if events == [] then s else Run(Step(s, events[0]), events[1..])
  }

  // ── The list operations, member by member ────────────────────────────────────

  lemma {:induction false} InvalidatedMembers(s: seq<Item>, id: int, x: Item)
    ensures x in Invalidated(s, id) <==> x in s && !Concerns(x, id)
  {
    if s != [] {
      InvalidatedMembers(s[1..], id, x);
      assert s == [s[0]] + s[1..];
      assert x in s <==> x == s[0] || x in s[1..];
    }
  }

  lemma PutMembers(s: seq<Item>, key: Key, user: User, now: int, x: Item)
    requires x in Put(s, key, user, now) && Distinct(s)
    ensures x == Item(key, user, now + TTL) || (x in s && x.key != key)
  {
  }

  lemma GotMembers(s: seq<Item>, key: Key, now: int, x: Item)
    requires x in Got(s, key, now)
    ensures x in s
  {
  }

  predicate KeysKnown(s: seq<Item>, origins: map<Key, Origin>) {
    forall i :: 0 <= i < |s| ==> s[i].key in origins
  }

  /** Most recently used first. */
  predicate Sorted(s: seq<Item>, origins: map<Key, Origin>)
    requires KeysKnown(s, origins)
  {
    forall i, j :: 0 <= i < j < |s| ==> origins[s[i].key].used > origins[s[j].key].used
  }

  predicate ShapeOk(s: seq<Item>, origins: map<Key, Origin>, clock: nat) {
    && Distinct(s) && |s| <= CAP && KeysKnown(s, origins) && Sorted(s, origins)
    && forall i :: 0 <= i < |s| ==> origins[s[i].key].used < clock
  }

  lemma {:induction false} InvalidatedShape(s: seq<Item>, id: int, origins: map<Key, Origin>, clock: nat)
    requires ShapeOk(s, origins, clock)
    ensures ShapeOk(Invalidated(s, id), origins, clock) && |Invalidated(s, id)| <= |s|
  {
    if s != [] {
      var tail := s[1..];
      var rest := Invalidated(tail, id);
      TailShape(s, origins, clock);
      InvalidatedShape(tail, id, origins, clock);
      forall j | 0 <= j < |rest| ensures rest[j] in tail { InvalidatedMembers(tail, id, rest[j]); }
      assert s == [s[0]] + tail;
      if Concerns(s[0], id) {
        assert Invalidated(s, id) == rest;
      } else {
        HeadShape(s[0], tail, rest, origins, clock);
      }
    }
  }

  lemma TailShape(s: seq<Item>, origins: map<Key, Origin>, clock: nat)
    requires ShapeOk(s, origins, clock) && s != []
    ensures ShapeOk(s[1..], origins, clock)
  {
  }

  lemma HeadShape(x: Item, tail: seq<Item>, rest: seq<Item>, origins: map<Key, Origin>, clock: nat)
    requires ShapeOk([x] + tail, origins, clock) && ShapeOk(rest, origins, clock) && |rest| <= |tail|
    requires forall j :: 0 <= j < |rest| ==> rest[j] in tail
    ensures ShapeOk([x] + rest, origins, clock)
  {
    var s := [x] + tail;
    assert s[0] == x;
    forall j | 0 <= j < |rest| ensures rest[j].key != x.key && origins[rest[j].key].used < origins[x.key].used {
      var k :| 0 <= k < |tail| && tail[k] == rest[j];
      assert s[k + 1] == rest[j];
    }
  }

  lemma FrontShape(x: Item, rest: seq<Item>, origins: map<Key, Origin>, clock: nat, o: Origin)
    requires ShapeOk(rest, origins, clock) && |rest| < CAP && o.used == clock
    requires forall i :: 0 <= i < |rest| ==> rest[i].key != x.key
    ensures ShapeOk([x] + rest, origins[x.key := o], clock + 1)
  {
  }

  lemma CutShape(s: seq<Item>, i: nat, origins: map<Key, Origin>, clock: nat)
    requires ShapeOk(s, origins, clock) && i < |s|
    ensures ShapeOk(Cut(s, i), origins, clock)
    ensures forall j :: 0 <= j < |Cut(s, i)| ==> Cut(s, i)[j].key != s[i].key
  {
  }

  lemma PutShape(s: seq<Item>, key: Key, user: User, now: int, origins: map<Key, Origin>, clock: nat, o: Origin)
    requires ShapeOk(s, origins, clock) && o.used == clock
    ensures ShapeOk(Put(s, key, user, now), origins[key := o], clock + 1)
  {
    var i := IndexOf(s, key);
    var rest := if i < |s| then Cut(s, i) else if |s| >= CAP then s[..CAP - 1] else s;
    if i < |s| { CutShape(s, i, origins, clock); }
    FrontShape(Item(key, user, now + TTL), rest, origins, clock, o);
  }

  lemma LaterShape(s: seq<Item>, origins: map<Key, Origin>, clock: nat)
    requires ShapeOk(s, origins, clock)
    ensures ShapeOk(s, origins, clock + 1)
  {
  }

  lemma GotShape(s: State, key: Key)
    requires ShapeOk(s.cache, s.origins, s.clock)
    ensures ShapeOk(Got(s.cache, key, s.now), Used(s, key), s.clock + 1)
  {
    var i := IndexOf(s.cache, key);
    if i == |s.cache| {
      LaterShape(s.cache, s.origins, s.clock);
    } else {
      var rest := Cut(s.cache, i);
      CutShape(s.cache, i, s.origins, s.clock);
      if s.now <= s.cache[i].exp {
        FrontShape(s.cache[i], rest, s.origins, s.clock, s.origins[key].(used := s.clock));
      } else {
        LaterShape(rest, s.origins, s.clock);
      }
    }
  }

  // ── What every reachable state satisfies ─────────────────────────────────────

  predicate UserOk(s: State, id: int)
    requires id in s.users
  {
    s.users[id].id == id < s.nextId && HashFree(s.users, s.users[id].apiKey, id)
  }

  predicate Matches(key: Key, user: User) {
    match key
    case Id(id) => user.id == id
    case Api(hash) => user.apiKey == hash
  }

  /** A mutation of this user committed after step `r`. */
  predicate Committed(s: State, id: int, r: nat) {
    exists m :: m in s.mutations && s.mutations[m].user == id && r < s.mutations[m].committedAt
  }

  /** A mutation of this user committed after the read of step `r`, and its invalidation either has not
      happened yet or came before the fill of step `f`. */
  predicate Overtaken(s: State, id: int, r: nat, f: nat) {
    exists m :: m in s.mutations && s.mutations[m].user == id && r < s.mutations[m].committedAt
                && (s.mutations[m].invalidatedAt.None? || s.mutations[m].invalidatedAt.value < f)
  }

  /** The version tells whether a commit for this user came after the read. */
  predicate VersionOk(s: State, id: int, version: nat, r: nat) {
    && version <= Version(s.versions, id)
    && (version < Version(s.versions, id) <==> Committed(s, id, r))
  }

  /** Every invalidation for this user so far came before step `f`. */
  predicate InvalidatedBefore(s: State, id: int, f: nat) {
    forall m :: m in s.mutations && s.mutations[m].user == id && s.mutations[m].invalidatedAt.Some? ==>
      s.mutations[m].invalidatedAt.value < f
  }

  predicate LookupOk(s: State, l: LookupId)
    requires l in s.lookups
  {
    var k := s.lookups[l];
    k.readAt < s.clock &&
    (k.answer.Some? ==>
       && Matches(k.key, k.answer.value)
       && VersionOk(s, k.answer.value.id, k.version, k.readAt)
       && (Answers(s.users, k.key, k.answer) || Committed(s, k.answer.value.id, k.readAt)))
  }

  predicate ItemOk(s: State, x: Item)
    requires x.key in s.origins
  {
    var o := s.origins[x.key];
    && Matches(x.key, x.user) && o.readAt < o.filledAt < s.clock
    && o.filledTime <= s.now && x.exp == o.filledTime + TTL
    && VersionOk(s, x.user.id, o.version, o.readAt) && InvalidatedBefore(s, x.user.id, o.filledAt)
    && (Answers(s.users, x.key, Some(x.user)) || Committed(s, x.user.id, o.readAt))
  }

  predicate TimesOk(s: State) {
    forall m :: m in s.mutations ==>
      s.mutations[m].committedAt < s.clock
      && (s.mutations[m].invalidatedAt.Some? ==>
            s.mutations[m].committedAt < s.mutations[m].invalidatedAt.value < s.clock)
  }

  predicate Inv(s: State) {
    && ShapeOk(s.cache, s.origins, s.clock) && TimesOk(s)
    && (forall id :: id in s.users ==> UserOk(s, id))
    && (forall l :: l in s.lookups ==> LookupOk(s, l))
    && (forall x :: x in s.cache ==> x.key in s.origins && ItemOk(s, x))
  }

  lemma UsersKept(s: State, e: Event, id: int)
    requires id in Step(s, e).users && forall u :: u in s.users ==> UserOk(s, u)
    ensures UserOk(Step(s, e), id)
  {
    if id in s.users { assert UserOk(s, id); }
    forall u | u in s.users ensures UserOk(s, u) {}
  }

  /** An answer that is right stays right unless that user is changed. */
  lemma AnswerKept(s: State, e: Event, key: Key, user: User)
    requires Answers(s.users, key, Some(user)) && forall u :: u in s.users ==> UserOk(s, u)
    ensures Answers(Step(s, e).users, key, Some(user)) || (e.Commit? && Enabled(s, e) && e.user == user.id)
  {
    assert UserOk(s, user.id);
  }

  /** Only a commit for the user adds to what was committed after a read. */
  lemma CommittedStep(s: State, e: Event, id: int, r: nat)
    requires r < s.clock
    ensures Committed(Step(s, e), id, r) <==> Committed(s, id, r) || (e.Commit? && Enabled(s, e) && e.user == id)
  {
    var t := Step(s, e);
    if Committed(s, id, r) {
      var m :| m in s.mutations && s.mutations[m].user == id && r < s.mutations[m].committedAt;
      assert m in t.mutations && t.mutations[m].user == id && r < t.mutations[m].committedAt;
    }
    if e.Commit? && Enabled(s, e) && e.user == id {
      assert e.m in t.mutations && t.mutations[e.m].user == id && r < t.mutations[e.m].committedAt;
    }
    if Committed(t, id, r) && !(e.Commit? && Enabled(s, e) && e.user == id) {
      var m :| m in t.mutations && t.mutations[m].user == id && r < t.mutations[m].committedAt;
      assert m in s.mutations && s.mutations[m].user == id && r < s.mutations[m].committedAt;
    }
  }

  lemma VersionKept(s: State, e: Event, id: int, version: nat, r: nat)
    requires VersionOk(s, id, version, r) && r < s.clock
    ensures VersionOk(Step(s, e), id, version, r)
  {
    CommittedStep(s, e, id, r);
  }

  /** A read sees the current version. */
  lemma ReadIsCurrent(s: State, e: Event, id: int)
    requires TimesOk(s) && !e.Commit?
    ensures VersionOk(Step(s, e), id, Version(s.versions, id), s.clock)
  {
    TimesKept(s, e);
    assert Step(s, e).versions == s.versions;
    assert forall m :: m in Step(s, e).mutations ==> Step(s, e).mutations[m].committedAt <= s.clock;
  }

  lemma InvalidatedBeforeKept(s: State, e: Event, id: int, f: nat)
    requires InvalidatedBefore(s, id, f)
    requires !(e.Invalidate? && Enabled(s, e) && s.mutations[e.m].user == id)
    ensures InvalidatedBefore(Step(s, e), id, f)
  {
  }

  lemma LookupKept(s: State, e: Event, l: LookupId)
    requires Inv(s) && l in Step(s, e).lookups
    ensures LookupOk(Step(s, e), l)
  {
    if l in s.lookups {
      assert LookupOk(s, l);
      var k := s.lookups[l];
      if k.answer.Some? {
        var id := k.answer.value.id;
        VersionKept(s, e, id, k.version, k.readAt);
        CommittedStep(s, e, id, k.readAt);
        if !Committed(s, id, k.readAt) { AnswerKept(s, e, k.key, k.answer.value); }
      }
    } else if e.answer.Some? {
      assert UserOk(s, e.answer.value.id);
      ReadIsCurrent(s, e, e.answer.value.id);
    }
  }

  /** An item that was cached before the step, with the same history but for its last use. */
  lemma OldItemKept(s: State, e: Event, x: Item)
    requires Inv(s) && x in s.cache && x.key in Step(s, e).origins
    requires Step(s, e).origins[x.key].(used := 0) == s.origins[x.key].(used := 0)
    requires !(e.Invalidate? && Enabled(s, e) && Concerns(x, s.mutations[e.m].user))
    ensures ItemOk(Step(s, e), x)
  {
    var o := s.origins[x.key];
    assert ItemOk(s, x);
    VersionKept(s, e, x.user.id, o.version, o.readAt);
    InvalidatedBeforeKept(s, e, x.user.id, o.filledAt);
    CommittedStep(s, e, x.user.id, o.readAt);
    if !Committed(s, x.user.id, o.readAt) { AnswerKept(s, e, x.key, x.user); }
  }

  lemma NewItemOk(s: State, e: Event, x: Item)
    requires Inv(s) && e.Fill? && Enabled(s, e) && s.lookups[e.l].answer.Some?
    requires x == Item(s.lookups[e.l].key, s.lookups[e.l].answer.value, s.now + TTL)
    ensures ItemOk(Step(s, e), x)
  {
    var k := s.lookups[e.l];
    assert LookupOk(s, e.l);
    VersionKept(s, e, x.user.id, k.version, k.readAt);
    CommittedStep(s, e, x.user.id, k.readAt);
  }

  lemma FilledItemKept(s: State, l: LookupId, x: Item)
    requires Inv(s) && Enabled(s, Fill(l)) && x in Step(s, Fill(l)).cache && x.key in Step(s, Fill(l)).origins
    ensures ItemOk(Step(s, Fill(l)), x)
  {
    var k := s.lookups[l];
    if k.answer.None? {
      OldItemKept(s, Fill(l), x);
    } else {
      PutMembers(s.cache, k.key, k.answer.value, s.now, x);
      if x in s.cache && x.key != k.key { OldItemKept(s, Fill(l), x); } else { NewItemOk(s, Fill(l), x); }
    }
  }

  lemma UsedItemKept(s: State, key: Key, x: Item)
    requires Inv(s) && x in Step(s, Get(key)).cache && x.key in Step(s, Get(key)).origins
    ensures ItemOk(Step(s, Get(key)), x)
  {
    GotMembers(s.cache, key, s.now, x);
    OldItemKept(s, Get(key), x);
  }

  lemma ItemKept(s: State, e: Event, x: Item)
    requires Inv(s) && x in Step(s, e).cache && x.key in Step(s, e).origins
    ensures ItemOk(Step(s, e), x)
  {
    if !Enabled(s, e) {
      OldItemKept(s, e, x);
      return;
    }
    match e
    case Get(key) => UsedItemKept(s, key, x);
    case Fill(l) => FilledItemKept(s, l, x);
    case Invalidate(m) =>
      InvalidatedMembers(s.cache, s.mutations[m].user, x);
      OldItemKept(s, e, x);
    case _ =>
      OldItemKept(s, e, x);
  }

  lemma ShapeKept(s: State, e: Event)
    requires Inv(s)
    ensures ShapeOk(Step(s, e).cache, Step(s, e).origins, Step(s, e).clock)
  {
    if Enabled(s, e) {
      match e
      case Get(key) => GotShape(s, key);
      case Fill(l) =>
        var k := s.lookups[l];
        if k.answer.Some? {
          PutShape(s.cache, k.key, k.answer.value, s.now, s.origins, s.clock,
                   Origin(k.version, k.readAt, s.clock, s.now, s.clock));
        }
      case Invalidate(m) => InvalidatedShape(s.cache, s.mutations[m].user, s.origins, s.clock);
      case _ =>
    }
  }

  lemma TimesKept(s: State, e: Event)
    requires TimesOk(s)
    ensures TimesOk(Step(s, e))
  {
  }

  lemma StepKeepsInv(s: State, e: Event)
    requires Inv(s)
    ensures Inv(Step(s, e))
  {
    var t := Step(s, e);
    ShapeKept(s, e);
    TimesKept(s, e);
    forall id | id in t.users ensures UserOk(t, id) { UsersKept(s, e, id); }
    forall l | l in t.lookups ensures LookupOk(t, l) { LookupKept(s, e, l); }
    forall x | x in t.cache ensures x.key in t.origins && ItemOk(t, x) {
      var i :| 0 <= i < |t.cache| && t.cache[i] == x;
      ItemKept(s, e, x);
    }
  }

  lemma {:induction false} RunKeepsInv(s: State, events: seq<Event>)
    requires Inv(s)
    ensures Inv(Run(s, events))
    decreases |events|
  {
    if events != [] {
      StepKeepsInv(s, events[0]);
      RunKeepsInv(Step(s, events[0]), events[1..]);
    }
  }

  // ── Main results ─────────────────────────────────────────────────────────────

  /** In every run the cache holds distinct keys, at most 4096, most recently used first. */
  lemma LruInEveryRun(events: seq<Event>)
    ensures var s := Run(INIT, events);
            && Distinct(s.cache) && |s.cache| <= 4096
            && KeysKnown(s.cache, s.origins) && Sorted(s.cache, s.origins)
  {
    RunKeepsInv(INIT, events);
  }

  /** A new key that overflows the cache costs exactly the least recently used entry its place. */
  lemma OverflowEvictsLeastRecentlyUsed(events: seq<Event>, key: Key, user: User)
    ensures var s := Run(INIT, events);
            IndexOf(s.cache, key) == |s.cache| == 4096 ==>
              var victim, after := s.cache[4095], Put(s.cache, key, user, s.now);
              && victim !in after
              && forall x :: x in s.cache && x != victim ==>
                   x in after && x.key in s.origins && victim.key in s.origins
                   && s.origins[victim.key].used < s.origins[x.key].used
  {
    RunKeepsInv(INIT, events);
    var s := Run(INIT, events);
    if IndexOf(s.cache, key) == |s.cache| == CAP { PutEvictsLast(s.cache, key, user, s.now, s.origins, s.clock); }
  }

  lemma PutEvictsLast(s: seq<Item>, key: Key, user: User, now: int, origins: map<Key, Origin>, clock: nat)
    requires ShapeOk(s, origins, clock) && IndexOf(s, key) == |s| == CAP
    ensures s[CAP - 1] !in Put(s, key, user, now)
    ensures forall x :: x in s && x != s[CAP - 1] ==>
              x in Put(s, key, user, now) && x.key in origins && s[CAP - 1].key in origins
              && origins[s[CAP - 1].key].used < origins[x.key].used
  {
    var victim, after := s[CAP - 1], Put(s, key, user, now);
    assert after == [Item(key, user, now + TTL)] + s[..CAP - 1];
    assert forall i :: 0 <= i < CAP - 1 ==> s[i].key != victim.key;
    forall x | x in s && x != victim
      ensures x in after && x.key in origins && victim.key in origins && origins[victim.key].used < origins[x.key].used
    {
      var i :| 0 <= i < |s| && s[i] == x;
      assert after[i + 1] == x;
    }
  }

  /** An invalidation removes every entry of that user, under either kind of key, and no other. */
  lemma InvalidationIsExact(events: seq<Event>, id: int, x: Item)
    ensures var s := Run(INIT, events);
            x in Invalidated(s.cache, id) <==> x in s.cache && x.user.id != id
  {
    RunKeepsInv(INIT, events);
    var s := Run(INIT, events);
    InvalidatedMembers(s.cache, id, x);
    if x in s.cache { assert ItemOk(s, x); }
  }

  lemma OvertakenWhenCommitted(s: State, id: int, r: nat, f: nat)
    requires InvalidatedBefore(s, id, f)
    ensures Overtaken(s, id, r, f) <==> Committed(s, id, r)
  {
    if Committed(s, id, r) {
      var m :| m in s.mutations && s.mutations[m].user == id && r < s.mutations[m].committedAt;
      assert s.mutations[m].invalidatedAt.None? || s.mutations[m].invalidatedAt.value < f;
    }
  }

  /** In every run a hit comes from the current version of the user's row if and only if the lookup that
      filled the entry was not overtaken: no mutation of that very user committed after the read and was
      invalidated before the fill, or not at all yet. A current hit is what the table answers now, and no
      hit is older than the TTL. */
  lemma HitsAreCurrentExactlyUnlessOvertaken(events: seq<Event>, key: Key)
    ensures var s := Run(INIT, events);
            Answer(s.cache, key, s.now).Some? ==>
              var user := Answer(s.cache, key, s.now).value;
              && key in s.origins && s.now <= s.origins[key].filledTime + 300_000
              && var o := s.origins[key];
                 && (o.version == Version(s.versions, user.id) <==> !Overtaken(s, user.id, o.readAt, o.filledAt))
                 && (!Overtaken(s, user.id, o.readAt, o.filledAt) ==> Answers(s.users, key, Some(user)))
  {
    RunKeepsInv(INIT, events);
    var s := Run(INIT, events);
    var i := IndexOf(s.cache, key);
    if i < |s.cache| {
      var x := s.cache[i];
      assert x in s.cache && ItemOk(s, x);
      OvertakenWhenCommitted(s, x.user.id, s.origins[key].readAt, s.origins[key].filledAt);
    }
  }

  // ── Stale hits do happen ─────────────────────────────────────────────────────

  lemma RunOne(s: State, e: Event, rest: seq<Event>)
    ensures Run(s, [e] + rest) == Run(Step(s, e), rest)
  {
    assert ([e] + rest)[1..] == rest;
  }

  const NEW_USER := User(1, "a", "h", "disabled", 5)

  /** The state after a user was created and a lookup has read its row. */
  function AfterRead(): State {
    State(2, 0, map[1 := NEW_USER], 2, map[], [], map[],
          map[0 := Lookup(Id(1), Some(NEW_USER), 0, 1, false)], map[])
  }

  const ACTIVATE := Commit(0, 1, SetStatus("active"))

  /** And after that user was activated, before the invalidation. */
  function AfterCommit(): State {
    Step(AfterRead(), ACTIVATE)
  }

  lemma ReadHappens(rest: seq<Event>)
    ensures Run(INIT, [Create("a", "h", 5)] + ([Read(0, Id(1), Some(NEW_USER))] + rest)) == Run(AfterRead(), rest)
  {
    var created := State(1, 0, map[1 := NEW_USER], 2, map[], [], map[], map[], map[]);
    RunOne(INIT, Create("a", "h", 5), [Read(0, Id(1), Some(NEW_USER))] + rest);
    assert Step(INIT, Create("a", "h", 5)) == created;
    RunOne(created, Read(0, Id(1), Some(NEW_USER)), rest);
    assert Step(created, Read(0, Id(1), Some(NEW_USER))) == AfterRead();
  }

  /** The race: a status change commits and invalidates between a lookup's read and its fill, and the old
      status is served for the TTL. */
  lemma StaleAfterTheRace() returns (events: seq<Event>)
    ensures var s := Run(INIT, events);
            Answer(s.cache, Id(1), s.now).Some? && !Answers(s.users, Id(1), Answer(s.cache, Id(1), s.now))
  {
    var rest := [Event.Invalidate(0)] + ([Fill(0)] + []);
    events := [Create("a", "h", 5)] + ([Read(0, Id(1), Some(NEW_USER))] + ([ACTIVATE] + rest));
    ReadHappens([ACTIVATE] + rest);
    RunOne(AfterRead(), ACTIVATE, rest);
    RunOne(AfterCommit(), Event.Invalidate(0), [Fill(0)] + []);
    RunOne(Step(AfterCommit(), Event.Invalidate(0)), Fill(0), []);
    assert AfterCommit().users[1].status == "active";
  }

  /** And between a commit and its invalidation the old value is still served. */
  lemma StaleUntilInvalidated() returns (events: seq<Event>)
    ensures var s := Run(INIT, events);
            Answer(s.cache, Id(1), s.now).Some? && !Answers(s.users, Id(1), Answer(s.cache, Id(1), s.now))
  {
    var rest := [Fill(0)] + ([ACTIVATE] + []);
    events := [Create("a", "h", 5)] + ([Read(0, Id(1), Some(NEW_USER))] + rest);
    ReadHappens(rest);
    RunOne(AfterRead(), Fill(0), [ACTIVATE] + []);
    RunOne(Step(AfterRead(), Fill(0)), ACTIVATE, []);
    assert Step(Step(AfterRead(), Fill(0)), ACTIVATE).users[1].status == "active";
  }

  // ── Lookups and mutations one at a time ──────────────────────────────────────

  datatype Op =
    | Wait(ms: nat)
    | LookUp(l: LookupId, key: Key, answer: Option<User>)
    | AddUser(name: string, hash: string, rateLimit: int)
    | Mutate(m: MutationId, user: int, change: Change)

  function Perform(s: State, op: Op): State {
    match op
    case Wait(ms) => Step(s, Advance(ms))
    case LookUp(l, key, answer) =>
      var t := Step(s, Get(key));
      if Answer(s.cache, key, s.now).Some? then t else Step(Step(t, Read(l, key, answer)), Fill(l))
    case AddUser(name, hash, limit) => Step(s, Create(name, hash, limit))
    case Mutate(m, id, c) => Step(Step(s, Commit(m, id, c)), Invalidate(m))
  }

  function Performed(s: State, ops: seq<Op>): State
    decreases |ops|
  {
    if ops == [] then s else Performed(Perform(s, ops[0]), ops[1..])
  }

  predicate Fresh(s: State, x: Item) {
    Answers(s.users, x.key, Some(x.user))
  }

  predicate AllFilledBut(s: State, l: LookupId) {
    forall k :: k in s.lookups && k != l ==> s.lookups[k].filled
  }

  predicate AllInvalidatedBut(s: State, m: MutationId) {
    forall k :: k in s.mutations && k != m ==> s.mutations[k].invalidatedAt.Some?
  }

  /** Nothing is under way, and the whole cache agrees with the table. */
  predicate Coherent(s: State) {
    && Inv(s)
    && (forall l :: l in s.lookups ==> s.lookups[l].filled)
    && (forall m :: m in s.mutations ==> s.mutations[m].invalidatedAt.Some?)
    && (forall x :: x in s.cache ==> Fresh(s, x))
  }

  lemma GetCoherent(s: State, key: Key)
    requires Coherent(s)
    ensures Coherent(Step(s, Get(key)))
  {
    var t := Step(s, Get(key));
    StepKeepsInv(s, Get(key));
    forall x | x in t.cache ensures Fresh(t, x) {
      GotMembers(s.cache, key, s.now, x);
      assert Fresh(s, x);
    }
  }

  lemma LookUpCoherent(s: State, l: LookupId, key: Key, answer: Option<User>)
    requires Coherent(s)
    ensures Coherent(Perform(s, LookUp(l, key, answer)))
  {
    GetCoherent(s, key);
    var t := Step(s, Get(key));
    if Answer(s.cache, key, s.now).None? {
      ReadCoherent(t, l, key, answer);
      FillCoherent(Step(t, Read(l, key, answer)), l);
    }
  }

  lemma ReadCoherent(s: State, l: LookupId, key: Key, answer: Option<User>)
    requires Coherent(s)
    ensures var t := Step(s, Read(l, key, answer));
            && Inv(t) && AllFilledBut(t, l) && t.mutations == s.mutations
            && (forall x :: x in t.cache ==> Fresh(t, x))
            && (l in t.lookups && !t.lookups[l].filled ==> Answers(t.users, t.lookups[l].key, t.lookups[l].answer))
  {
    StepKeepsInv(s, Read(l, key, answer));
    forall x | x in s.cache ensures Fresh(Step(s, Read(l, key, answer)), x) { assert Fresh(s, x); }
  }

  lemma FillCoherent(s: State, l: LookupId)
    requires Inv(s) && AllFilledBut(s, l)
    requires forall m :: m in s.mutations ==> s.mutations[m].invalidatedAt.Some?
    requires forall x :: x in s.cache ==> Fresh(s, x)
    requires l in s.lookups && !s.lookups[l].filled ==> Answers(s.users, s.lookups[l].key, s.lookups[l].answer)
    ensures Coherent(Step(s, Fill(l)))
  {
    var t := Step(s, Fill(l));
    StepKeepsInv(s, Fill(l));
    forall x | x in t.cache ensures Fresh(t, x) {
      if Enabled(s, Fill(l)) && s.lookups[l].answer.Some? {
        PutMembers(s.cache, s.lookups[l].key, s.lookups[l].answer.value, s.now, x);
      }
    }
  }

  lemma MutateCoherent(s: State, m: MutationId, id: int, c: Change)
    requires Coherent(s)
    ensures Coherent(Perform(s, Mutate(m, id, c)))
  {
    CommitCoherent(s, Commit(m, id, c));
    InvalidateCoherent(Step(s, Commit(m, id, c)), m, id);
  }

  lemma CommitCoherent(s: State, e: Event)
    requires Coherent(s) && e.Commit?
    ensures var t := Step(s, e);
            && Inv(t) && AllInvalidatedBut(t, e.m) && t.lookups == s.lookups
            && (forall x :: x in t.cache ==> Fresh(t, x) || (Enabled(t, Event.Invalidate(e.m)) && x.user.id == e.user))
            && (Enabled(t, Event.Invalidate(e.m)) ==> t.mutations[e.m].user == e.user)
  {
    var t := Step(s, e);
    StepKeepsInv(s, e);
    assert t.cache == s.cache;
    forall x | x in t.cache ensures Fresh(t, x) || (Enabled(s, e) && x.user.id == e.user) {
      assert Fresh(s, x);
      AnswerKept(s, e, x.key, x.user);
    }
  }

  lemma InvalidateCoherent(s: State, m: MutationId, id: int)
    requires Inv(s) && AllInvalidatedBut(s, m)
    requires forall l :: l in s.lookups ==> s.lookups[l].filled
    requires forall x :: x in s.cache ==> Fresh(s, x) || (Enabled(s, Event.Invalidate(m)) && x.user.id == id)
    requires Enabled(s, Event.Invalidate(m)) ==> s.mutations[m].user == id
    ensures Coherent(Step(s, Event.Invalidate(m)))
  {
    var t := Step(s, Event.Invalidate(m));
    StepKeepsInv(s, Event.Invalidate(m));
    forall x | x in t.cache ensures Fresh(t, x) {
      if Enabled(s, Event.Invalidate(m)) {
        InvalidatedMembers(s.cache, id, x);
        assert ItemOk(s, x);
      }
    }
  }

  lemma {:induction false} SequentialRunsAreCoherent(s: State, ops: seq<Op>)
    requires Coherent(s)
    ensures Coherent(Performed(s, ops))
    decreases |ops|
  {
    if ops != [] {
      match ops[0] {
        case Wait(ms) => PlainCoherent(s, Advance(ms));
        case LookUp(l, key, answer) => LookUpCoherent(s, l, key, answer);
        case AddUser(name, hash, limit) => PlainCoherent(s, Create(name, hash, limit));
        case Mutate(m, id, c) => MutateCoherent(s, m, id, c);
      }
      SequentialRunsAreCoherent(Perform(s, ops[0]), ops[1..]);
    }
  }

  lemma PlainCoherent(s: State, e: Event)
    requires Coherent(s) && (e.Advance? || e.Create?)
    ensures Coherent(Step(s, e))
  {
    StepKeepsInv(s, e);
    forall x | x in s.cache ensures Fresh(Step(s, e), x) {
      assert Fresh(s, x);
      AnswerKept(s, e, x.key, x.user);
    }
  }

  /** With lookups and mutations not interleaved, every hit is exactly what the table answers. */
  lemma SequentialHitsAreTrue(ops: seq<Op>, key: Key)
    ensures var s := Performed(INIT, ops);
            Answer(s.cache, key, s.now).Some? ==> Answers(s.users, key, Answer(s.cache, key, s.now))
  {
    SequentialRunsAreCoherent(INIT, ops);
    var s := Performed(INIT, ops);
    var i := IndexOf(s.cache, key);
    if i < |s.cache| { assert s.cache[i] in s.cache && Fresh(s, s.cache[i]); }
  }
}
