/**
 The size-capped LRU of users with its index, and how it stays in step with the users table while
 lookups and mutations interleave: a lookup reads the table and fills the cache later, a mutation
 commits and invalidates later.
*/
module UserCache {
  import opened Prelude

  const CAP := 4096
  const TTL := 300_000

  /** `apiKey` is the stored hash. */
  datatype User = User(id: int, name: string, apiKey: string, status: string, rateLimit: int)

  datatype Key = Api(hash: string) | Id(id: int)

  datatype Item = Item(key: Key, user: User, exp: int)

  // ── The cache as a list, most recently used first ────────────────────────────

  /** The position of a key, |s| when absent. */
  function IndexOf(s: seq<Item>, key: Key): (i: nat)
    ensures i <= |s| && (i < |s| ==> s[i].key == key)
    ensures forall j :: 0 <= j < i ==> s[j].key != key
  {
    if s == [] then 0 else if s[0].key == key then 0 else 1 + IndexOf(s[1..], key)
  }

  function Cut<T>(s: seq<T>, i: nat): seq<T>
    requires i < |s|
  {
    s[..i] + s[i + 1..]
  }

  /** Reading an entry makes it the most recent; an expired one is dropped. */
  function Got(s: seq<Item>, key: Key, now: int): seq<Item> {
    var i := IndexOf(s, key);
    if i == |s| then s
    else if now > s[i].exp then Cut(s, i)
    else [s[i]] + Cut(s, i)
  }

  function Answer(s: seq<Item>, key: Key, now: int): Option<User> {
    var i := IndexOf(s, key);
    if i < |s| && now <= s[i].exp then Some(s[i].user) else None
  }

  function Put(s: seq<Item>, key: Key, user: User, now: int): seq<Item> {
    var i := IndexOf(s, key);
    var item := Item(key, user, now + TTL);
    if i < |s| then [item] + Cut(s, i)
    else if |s| >= CAP then [item] + s[..CAP - 1]
    else [item] + s
  }

  /** Which entries invalidateUserCache looks for. */
  predicate Concerns(item: Item, id: int) {
    item.key == Id(id) || (item.key.Api? && item.user.id == id)
  }

  function Invalidated(s: seq<Item>, id: int): seq<Item> {
    if s == [] then [] else (if Concerns(s[0], id) then [] else [s[0]]) + Invalidated(s[1..], id)
  }

  function Kept(s: seq<Item>, gone: set<Key>): seq<Item> {
    if s == [] then [] else (if s[0].key in gone then [] else [s[0]]) + Kept(s[1..], gone)
  }

  lemma {:induction false} KeptAll(s: seq<Item>)
    ensures Kept(s, {}) == s
  {
    if s != [] { KeptAll(s[1..]); }
  }

  lemma {:induction false} KeptIsInvalidated(s: seq<Item>, gone: set<Key>, id: int)
    requires forall i :: 0 <= i < |s| ==> (s[i].key in gone <==> Concerns(s[i], id))
    ensures Kept(s, gone) == Invalidated(s, id)
  {
    if s != [] { KeptIsInvalidated(s[1..], gone, id); }
  }

  lemma {:induction false} KeptMisses(s: seq<Item>, gone: set<Key>, key: Key)
    requires forall i :: 0 <= i < |s| ==> s[i].key != key
    ensures Kept(s, gone + {key}) == Kept(s, gone)
  {
    if s != [] {
      KeptMisses(s[1..], gone, key);
      assert s[0].key != key;
    }
  }

  lemma CutTail<T>(x: T, s: seq<T>, i: nat)
    requires i < |s|
    ensures Cut([x] + s, i + 1) == [x] + Cut(s, i)
  {
  }

  /** Removing one more key from what is kept is one removal from the list. */
  lemma {:induction false} KeptCut(s: seq<Item>, gone: set<Key>, key: Key)
    requires Distinct(s) && IndexOf(Kept(s, gone), key) < |Kept(s, gone)|
    ensures Kept(s, gone + {key}) == Cut(Kept(s, gone), IndexOf(Kept(s, gone), key))
  {
    var rest := Kept(s[1..], gone);
    if s[0].key in gone {
      assert Kept(s, gone) == rest;
      KeptCut(s[1..], gone, key);
    } else {
      assert Kept(s, gone)[1..] == rest;
      if s[0].key == key {
        KeptMisses(s[1..], gone, key);
      } else {
        KeptCut(s[1..], gone, key);
        CutTail(s[0], rest, IndexOf(rest, key));
      }
    }
  }

  /** A key that is not gone is still found, with its item. */
  lemma {:induction false} KeptAt(s: seq<Item>, gone: set<Key>, i: nat)
    requires Distinct(s) && i < |s| && s[i].key !in gone
    ensures var at := IndexOf(Kept(s, gone), s[i].key);
            at < |Kept(s, gone)| && Kept(s, gone)[at] == s[i]
  {
    if i > 0 {
      KeptAt(s[1..], gone, i - 1);
      var rest := Kept(s[1..], gone);
      if s[0].key !in gone {
        assert Kept(s, gone)[1..] == rest;
      } else {
        assert Kept(s, gone) == rest;
      }
    }
  }

  /** Which keys are gone once the loop has visited `done`. */
  predicate Gone(s: seq<Item>, gone: set<Key>, id: int, done: seq<Key>) {
    forall i :: 0 <= i < |s| ==> (s[i].key in gone <==> Concerns(s[i], id) && (s[i].key.Id? || s[i].key in done))
  }

  predicate GoneNext(s: seq<Item>, gone: set<Key>, gone': set<Key>, id: int, k: Key) {
    forall i :: 0 <= i < |s| ==>
      (s[i].key in gone' <==> s[i].key in gone || (s[i].key == k && k.Api? && s[i].user.id == id))
  }

  lemma GoneSnoc(s: seq<Item>, gone: set<Key>, gone': set<Key>, id: int, order: seq<Key>, n: nat)
    requires n < |order| && Gone(s, gone, id, order[..n]) && GoneNext(s, gone, gone', id, order[n])
    ensures Gone(s, gone', id, order[..n + 1])
  {
    assert order[..n + 1] == order[..n] + [order[n]];
  }

  lemma GoneStart(s: seq<Item>, id: int)
    ensures Gone(s, if IndexOf(s, Id(id)) < |s| then {} + {Id(id)} else {}, id, [])
  {
  }

  lemma AllGone(s: seq<Item>, gone: set<Key>, id: int, order: seq<Key>)
    requires Gone(s, gone, id, order[..|order|])
    requires forall i :: 0 <= i < |s| ==> s[i].key in order
    ensures Kept(s, gone) == Invalidated(s, id)
  {
    assert order[..|order|] == order;
    KeptIsInvalidated(s, gone, id);
  }

  predicate Distinct(s: seq<Item>) {
    forall i, j :: 0 <= i < j < |s| ==> s[i].key != s[j].key
  }

  // ── The cache as a map ───────────────────────────────────────────────────────

  predicate Holds(s: seq<Item>, key: Key, user: User, now: int) {
    exists i :: 0 <= i < |s| && s[i].key == key && s[i].user == user && now <= s[i].exp
  }

  lemma AnswerIsHeld(s: seq<Item>, key: Key, user: User, now: int)
    requires Distinct(s)
    ensures Answer(s, key, now) == Some(user) <==> Holds(s, key, user, now)
  {
  }

  /** A cached value is served until its TTL. */
  lemma PutIsServed(s: seq<Item>, key: Key, user: User, now: int, later: int)
    ensures Answer(Put(s, key, user, now), key, later) == if later <= now + 300_000 then Some(user) else None
  {
    assert Put(s, key, user, now)[0].key == key;
  }

  lemma CutHeld(s: seq<Item>, i: nat, key: Key, user: User, now: int)
    requires i < |s| && s[i].key != key
    ensures Holds(Cut(s, i), key, user, now) <==> Holds(s, key, user, now)
  {
    if Holds(s, key, user, now) {
      var j :| 0 <= j < |s| && s[j].key == key && s[j].user == user && now <= s[j].exp;
      assert Cut(s, i)[if j < i then j else j - 1] == s[j];
    }
    if Holds(Cut(s, i), key, user, now) {
      var j :| 0 <= j < |Cut(s, i)| && Cut(s, i)[j].key == key && Cut(s, i)[j].user == user && now <= Cut(s, i)[j].exp;
      assert s[if j < i then j else j + 1] == Cut(s, i)[j];
    }
  }

  lemma FrontHeld(x: Item, s: seq<Item>, key: Key, user: User, now: int)
    ensures Holds([x] + s, key, user, now)
       <==> (x.key == key && x.user == user && now <= x.exp) || Holds(s, key, user, now)
  {
    if Holds(s, key, user, now) {
      var j :| 0 <= j < |s| && s[j].key == key && s[j].user == user && now <= s[j].exp;
      assert ([x] + s)[j + 1] == s[j];
    }
    if x.key == key && x.user == user && now <= x.exp { assert ([x] + s)[0] == x; }
  }

  /** Caching one key leaves every other answer alone, except that of an entry it evicts. */
  lemma PutSparesOthers(s: seq<Item>, key: Key, user: User, now: int, other: Key, u: User, later: int)
    requires Distinct(s) && |s| <= CAP && other != key
    ensures Holds(Put(s, key, user, now), other, u, later) <==>
              Holds(s, other, u, later) && !(IndexOf(s, key) == |s| == CAP && s[CAP - 1].key == other)
  {
    var i, item := IndexOf(s, key), Item(key, user, now + TTL);
    if i < |s| {
      CutHeld(s, i, other, u, later);
      FrontHeld(item, Cut(s, i), other, u, later);
    } else if |s| == CAP {
      assert s[..CAP - 1] == Cut(s, CAP - 1);
      if s[CAP - 1].key != other { CutHeld(s, CAP - 1, other, u, later); }
      FrontHeld(item, s[..CAP - 1], other, u, later);
    } else {
      FrontHeld(item, s, other, u, later);
    }
  }

  /** Looking a key up changes no answer, now or later. */
  lemma GetChangesNoAnswer(s: seq<Item>, key: Key, now: int, other: Key, u: User, later: int)
    requires Distinct(s) && now <= later
    ensures Holds(Got(s, key, now), other, u, later) <==> Holds(s, other, u, later)
  {
    var i := IndexOf(s, key);
    if i < |s| {
      if other != key { CutHeld(s, i, other, u, later); }
      FrontHeld(s[i], Cut(s, i), other, u, later);
    }
  }

  // ── The list and the index that the mutex guards ─────────────────────────────

  class Element {
    const key: Key
    var user: User
    var exp: int

    constructor (key: Key, user: User, exp: int)
      ensures this.key == key && this.user == user && this.exp == exp
    {
      this.key, this.user, this.exp := key, user, exp;
    }

    function Entry(): Item
      reads this
    {
      Item(key, user, exp)
    }
  }

  function Items(lru: seq<Element>): (s: seq<Item>)
    reads lru
    ensures |s| == |lru|
    ensures forall i :: 0 <= i < |s| ==> s[i] == lru[i].Entry()
  {
    seq(|lru|, i requires 0 <= i < |lru| reads lru => lru[i].Entry())
  }

  /** The list and the index hold the same elements, one per key. */
  ghost predicate Linked(lru: seq<Element>, idx: map<Key, Element>) {
    && (forall i :: 0 <= i < |lru| ==> lru[i].key in idx && idx[lru[i].key] == lru[i])
    && (forall k :: k in idx ==> idx[k] in lru && idx[k].key == k)
    && (forall i, j :: 0 <= i < j < |lru| ==> lru[i] != lru[j])
  }

  lemma CutHolds<T>(s: seq<T>, i: nat, x: T)
    requires i < |s| && x in s && x != s[i]
    ensures x in Cut(s, i)
  {
    var j :| 0 <= j < |s| && s[j] == x;
    assert Cut(s, i)[if j < i then j else j - 1] == x;
  }

  lemma NotInCut<T>(s: seq<T>, i: nat)
    requires i < |s| && forall j, k :: 0 <= j < k < |s| ==> s[j] != s[k]
    ensures s[i] !in Cut(s, i)
  {
  }

  lemma CutLinked(lru: seq<Element>, idx: map<Key, Element>, i: nat)
    requires Linked(lru, idx) && i < |lru|
    ensures Linked(Cut(lru, i), idx - {lru[i].key})
  {
    forall k | k in idx && k != lru[i].key ensures idx[k] in Cut(lru, i) {
      CutHolds(lru, i, idx[k]);
    }
  }

  lemma FrontLinked(lru: seq<Element>, idx: map<Key, Element>, i: nat)
    requires Linked(lru, idx) && i < |lru|
    ensures Linked([lru[i]] + Cut(lru, i), idx)
  {
    CutLinked(lru, idx, i);
    var front := [lru[i]] + Cut(lru, i);
    forall k | k in idx ensures idx[k] in front {
      if k == lru[i].key { assert front[0] == idx[k]; } else { assert idx[k] in Cut(lru, i); }
    }
  }

  lemma PushLinked(lru: seq<Element>, idx: map<Key, Element>, el: Element)
    requires Linked(lru, idx) && el.key !in idx
    ensures Linked([el] + lru, idx[el.key := el])
  {
    var front := [el] + lru;
    assert forall i :: 0 <= i < |lru| ==> lru[i].key in idx;
    var after := idx[el.key := el];
    forall k | k in after ensures after[k] in front {
      if k == el.key { assert front[0] == el; }
    }
  }

  lemma ItemsCut(lru: seq<Element>, i: nat)
    requires i < |lru|
    ensures Items(Cut(lru, i)) == Cut(Items(lru), i)
  {
  }

  lemma ItemsFront(el: Element, lru: seq<Element>)
    ensures Items([el] + lru) == [el.Entry()] + Items(lru)
  {
  }

  lemma ItemsFrontPrefix(el: Element, lru: seq<Element>, n: nat)
    requires n <= |lru| + 1
    ensures Items(([el] + lru)[..n]) == ([el.Entry()] + Items(lru))[..n]
  {
  }

  /** A new key goes to the front of whatever still fits. */
  lemma PutNew(s: seq<Item>, key: Key, user: User, now: int)
    requires IndexOf(s, key) == |s| <= CAP
    ensures Put(s, key, user, now) == ([Item(key, user, now + TTL)] + s)[..if |s| + 1 > CAP then CAP else |s| + 1]
  {
  }

  lemma LinkedDistinct(lru: seq<Element>, idx: map<Key, Element>)
    requires Linked(lru, idx)
    ensures Distinct(Items(lru))
  {
  }

  class Cache {
    var lru: seq<Element>
    var idx: map<Key, Element>

    ghost predicate Valid()
      reads this
    {
      Linked(lru, idx) && |lru| <= CAP
    }

    constructor ()
      ensures Valid() && lru == []
    {
      lru, idx := [], map[];
    }

    method Unlink(el: Element, ghost i: nat)
      requires i < |lru| && lru[i] == el
      requires forall j, k :: 0 <= j < k < |lru| ==> lru[j] != lru[k]
      modifies this`lru
      ensures lru == Cut(old(lru), i)
    {
      var at := 0;
      while lru[at] != el
        invariant 0 <= at <= i
        decreases |lru| - at
      {
        at := at + 1;
      }
      lru := lru[..at] + lru[at + 1..];
    }

    method Remove(el: Element, ghost i: nat)
      requires Linked(lru, idx) && i < |lru| && lru[i] == el
      modifies this
      ensures Linked(lru, idx) && lru == Cut(old(lru), i) && idx == old(idx) - {el.key}
    {
      CutLinked(lru, idx, i);
      Unlink(el, i);
      idx := idx - {el.key};
    }

    method MoveToFront(el: Element, ghost i: nat)
      requires Linked(lru, idx) && i < |lru| && lru[i] == el
      modifies this`lru
      ensures Linked(lru, idx) && lru == [el] + Cut(old(lru), i)
    {
      FrontLinked(lru, idx, i);
      Unlink(el, i);
      lru := [el] + lru;
    }

    method PushFront(el: Element)
      requires Linked(lru, idx) && el.key !in idx
      modifies this
      ensures Linked(lru, idx) && lru == [el] + old(lru) && idx == old(idx)[el.key := el]
    {
      PushLinked(lru, idx, el);
      lru := [el] + lru;
      idx := idx[el.key := el];
    }

    method Get(key: Key, now: int) returns (user: Option<User>)
      requires Valid()
      modifies this
      ensures Valid()
      ensures Items(lru) == Got(old(Items(lru)), key, now)
      ensures user == Answer(old(Items(lru)), key, now)
    {
      Located(key);
      if key !in idx {
        return None;
      }
      var el := idx[key];
      ghost var i := IndexOf(Items(lru), key);
      ItemsCut(lru, i);
      ItemsFront(el, Cut(lru, i));
      if now > el.exp {
        Remove(el, i);
        return None;
      }
      MoveToFront(el, i);
      return Some(el.user);
    }

    method Set(key: Key, user: User, now: int)
      requires Valid()
      modifies this, lru
      ensures Valid()
      ensures Items(lru) == Put(old(Items(lru)), key, user, now)
    {
      Located(key);
      if key in idx {
        Refresh(key, user, now);
      } else {
        Insert(key, user, now);
      }
    }

    /** The branch of userCacheSet for a key that is already cached. */
    method Refresh(key: Key, user: User, now: int)
      requires Valid() && key in idx
      modifies this`lru, lru
      ensures Valid()
      ensures Items(lru) == Put(old(Items(lru)), key, user, now)
    {
      Located(key);
      var el := idx[key];
      ghost var i := IndexOf(Items(lru), key);
      ghost var rest := Cut(lru, i);
      ghost var kept := Items(rest);
      ItemsCut(lru, i);
      NotInCut(lru, i);
      el.user := user;
      el.exp := now + TTL;
      assert Items(rest) == kept;
      ItemsFront(el, rest);
      MoveToFront(el, i);
    }

    /** The branch for a new key. */
    method Insert(key: Key, user: User, now: int)
      requires Valid() && key !in idx
      modifies this
      ensures Valid()
      ensures Items(lru) == Put(old(Items(lru)), key, user, now)
    {
      Located(key);
      ghost var list, before := lru, Items(lru);
      PutNew(before, key, user, now);
      var el := new Element(key, user, now + TTL);
      assert Items(list) == before;
      PushFront(el);
      EvictOverflow();
      assert lru == ([el] + list)[..if |list| + 1 > CAP then CAP else |list| + 1];
      ItemsFrontPrefix(el, list, |lru|);
    }

    method EvictOverflow()
      requires Linked(lru, idx) && |lru| <= CAP + 1
      modifies this
      ensures Linked(lru, idx) && lru == old(lru)[..if |old(lru)| > 4096 then 4096 else |old(lru)|]
    {
      ghost var all := lru;
      while |lru| > CAP
        invariant Linked(lru, idx) && lru == all[..|lru|] && |all| - 1 <= |lru| <= |all|
        invariant |lru| < |all| ==> |lru| == CAP
      {
        var tail := lru[|lru| - 1];
        Remove(tail, |lru| - 1);
        assert lru == all[..|lru|];
      }
    }

    /** The index and the list agree on where a key is. */
    lemma Located(key: Key)
      requires Linked(lru, idx)
      ensures key in idx <==> IndexOf(Items(lru), key) < |lru|
      ensures key in idx ==> lru[IndexOf(Items(lru), key)] == idx[key]
    {
      if key in idx {
        var i :| 0 <= i < |lru| && lru[i] == idx[key];
        assert Items(lru)[i].key == key;
      }
    }

    /** `order` is the order in which the loop happens to visit the index. */
    method Invalidate(id: int, order: seq<Key>)
      requires Valid()
      requires forall k :: k in idx ==> k in order
      modifies this
      ensures Valid()
      ensures Items(lru) == Invalidated(old(Items(lru)), id)
    {
      ghost var before := Items(lru);
      forall i | 0 <= i < |before| ensures before[i].key in order { assert lru[i].key in idx; }
      LinkedDistinct(lru, idx);
      ghost var gone := ConsiderId(id, before);
      for n := 0 to |order|
        invariant Valid() && Items(lru) == Kept(before, gone)
        invariant Gone(before, gone, id, order[..n])
      {
        ghost var gone' := Consider(order[n], id, before, gone);
        GoneSnoc(before, gone, gone', id, order, n);
        gone := gone';
      }
      AllGone(before, gone, id, order);
    }

    /** The entry under the user's id, before the loop. */
    method ConsiderId(id: int, ghost before: seq<Item>) returns (ghost gone: set<Key>)
      requires Valid() && Distinct(before) && Items(lru) == before
      modifies this
      ensures Valid() && Items(lru) == Kept(before, gone)
      ensures Gone(before, gone, id, [])
    {
      KeptAll(before);
      GoneStart(before, id);
      Located(Id(id));
      gone := {};
      if Id(id) in idx {
        gone := Discard(Id(id), before, {});
      }
    }

    /** One turn of the loop. */
    method Consider(k: Key, id: int, ghost before: seq<Item>, ghost gone: set<Key>) returns (ghost gone': set<Key>)
      requires Valid() && Distinct(before) && Items(lru) == Kept(before, gone)
      modifies this
      ensures Valid() && Items(lru) == Kept(before, gone')
      ensures GoneNext(before, gone, gone', id, k)
    {
      forall i | 0 <= i < |before| && before[i].key == k && k !in gone
        ensures k in idx && before[i].user == idx[k].user
      {
        KeptAt(before, gone, i);
        Located(k);
      }
      gone' := gone;
      if k.Api? && k in idx && idx[k].user.id == id {
        gone' := Discard(k, before, gone);
      }
    }

    /** Removes one entry; `gone` are the keys already removed from `before`. */
    method Discard(key: Key, ghost before: seq<Item>, ghost gone: set<Key>) returns (ghost gone': set<Key>)
      requires Valid() && key in idx && Distinct(before) && Items(lru) == Kept(before, gone)
      modifies this
      ensures Valid() && Items(lru) == Kept(before, gone') && gone' == gone + {key}
      ensures idx == old(idx) - {key}
    {
      Located(key);
      ItemsCut(lru, IndexOf(Items(lru), key));
      KeptCut(before, gone, key);
      gone' := gone + {key};
      Remove(idx[key], IndexOf(Items(lru), key));
    }
  }
}
