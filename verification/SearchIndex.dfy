/**
 The contentless full-text index over the interaction log, kept in step by row triggers. A
 contentless index cannot look up what it indexed: every removal must supply the same values again.
*/
module SearchIndex {
  import opened Prelude

  /** One logs row; a NULL column is None. */
  datatype Row = Row(userId: int, prompt: Option<string>, response: Option<string>)

  /** What one index insertion recorded. */
  datatype Posting = Posting(rowid: int, prompt: string, response: string, userName: string)

  /** `exact` turns false for good once a 'delete' supplies values that were never indexed. */
  datatype Db = Db(users: map<int, string>, logs: map<int, Row>, index: multiset<Posting>, exact: bool,
                   nextUser: int, nextLog: int)

  const EMPTY := Db(map[], map[], multiset{}, true, 1, 1)

  function Coalesce(column: Option<string>): string {
    if column.Some? then column.value else ""
  }

  /** The subselect of both triggers: the user's name now, '' if the user is gone. */
  function NameOf(users: map<int, string>, id: int): string {
    if id in users then users[id] else ""
  }

  function ImageOf(users: map<int, string>, id: int, row: Row): Posting {
    Posting(id, Coalesce(row.prompt), Coalesce(row.response), NameOf(users, row.userId))
  }

  // ── The statements, each with the triggers it fires ──────────────────────────

  function UserCreated(s: Db, name: string): Db {
    if name in s.users.Values then s
    else s.(users := s.users[s.nextUser := name], nextUser := s.nextUser + 1)
  }

  function LogInserted(s: Db, row: Row): Db {
    s.(logs := s.logs[s.nextLog := row], nextLog := s.nextLog + 1,
       index := s.index + multiset{ImageOf(s.users, s.nextLog, row)})
  }

  function RowDeleted(s: Db, id: int): Db {
    if id !in s.logs then s
    else
      var p := ImageOf(s.users, id, s.logs[id]);
      s.(logs := s.logs - {id}, index := s.index - multiset{p}, exact := s.exact && p in s.index)
  }

  /** One DELETE statement; `order` is the order in which SQLite visits the rows. */
  function RowsDeleted(s: Db, order: seq<int>): Db
    decreases |order|
  {
    if order == [] then s else RowDeleted(RowsDeleted(s, order[..|order| - 1]), order[|order| - 1])
  }

  function UserRowDeleted(s: Db, id: int): Db {
    s.(users := s.users - {id})
  }

  predicate RowsOfUser(s: Db, id: int, order: seq<int>) {
    && (forall k :: 0 <= k < |order| ==> order[k] in s.logs && s.logs[order[k]].userId == id)
    && (forall r :: r in s.logs && s.logs[r].userId == id ==> r in order)
  }

  /** The indexed text of a row: NULL columns as '', and the name of its user, '' once the user is gone. */
  predicate Shows(p: Posting, row: Row, users: map<int, string>) {
    && p.prompt == (if row.prompt.Some? then row.prompt.value else "")
    && p.response == (if row.response.Some? then row.response.value else "")
    && p.userName == (if row.userId in users then users[row.userId] else "")
  }

  /** What a row is indexed as, and nothing else is. */
  lemma ImageShows(p: Posting, users: map<int, string>, id: int, row: Row)
    ensures p == ImageOf(users, id, row) <==> p.rowid == id && Shows(p, row, users)
  {
  }

  class Store {
    var users: map<int, string>
    var logs: map<int, Row>
    var index: multiset<Posting>
    var exact: bool
    var nextUser: int
    var nextLog: int

    function View(): Db
      reads this
    {
      Db(users, logs, index, exact, nextUser, nextLog)
    }

    constructor ()
      ensures View() == EMPTY
    {
      users, logs, index, exact, nextUser, nextLog := map[], map[], multiset{}, true, 1, 1;
    }

    method CreateUser(name: string) returns (ok: bool)
      modifies this
      ensures ok == (name !in old(users).Values) && View() == UserCreated(old(View()), name)
      ensures users == if ok then old(users)[old(nextUser) := name] else old(users)
      ensures nextUser == old(nextUser) + (if ok then 1 else 0) && logs == old(logs) && index == old(index)
    {
      ok := name !in users.Values;
      if ok {
        users := users[nextUser := name];
        nextUser := nextUser + 1;
      }
    }

    method InsertLog(row: Row)
      modifies this
      ensures View() == LogInserted(old(View()), row)
      ensures logs == old(logs)[old(nextLog) := row] && nextLog == old(nextLog) + 1 && users == old(users)
      ensures index == old(index) + multiset{ImageOf(old(users), old(nextLog), row)}
    {
      var id := nextLog;
      logs := logs[id := row];
      nextLog := nextLog + 1;
      // logs_ai
      var p := Posting(id, Coalesce(row.prompt), Coalesce(row.response), NameOf(users, row.userId));
      index := index + multiset{p};
    }

    method DeleteRow(id: int)
      modifies this
      ensures View() == RowDeleted(old(View()), id)
      ensures logs == old(logs) - {id} && users == old(users)
      ensures id !in old(logs) ==> index == old(index) && exact == old(exact)
      ensures id in old(logs) ==>
                var p := ImageOf(old(users), id, old(logs)[id]);
                index == old(index) - multiset{p} && exact == (old(exact) && p in old(index))
    {
      if id !in logs {
        return;
      }
      var row := logs[id];
      logs := logs - {id};
      // logs_ad
      var p := Posting(id, Coalesce(row.prompt), Coalesce(row.response), NameOf(users, row.userId));
      exact := exact && p in index;
      index := index - multiset{p};
    }

    method DeleteRows(order: seq<int>)
      modifies this
      ensures View() == RowsDeleted(old(View()), order) && users == old(users)
      ensures forall r :: r in logs <==> r in old(logs) && r !in order
      ensures forall r :: r in logs ==> logs[r] == old(logs)[r]
    {
      for i := 0 to |order|
        invariant View() == RowsDeleted(old(View()), order[..i]) && users == old(users)
        invariant forall r :: r in logs <==> r in old(logs) && r !in order[..i]
        invariant forall r :: r in logs ==> logs[r] == old(logs)[r]
      {
        assert order[..i + 1][..i] == order[..i];
        DeleteRow(order[i]);
      }
      assert order[..|order|] == order;
    }

    /** createSchema's one-shot INSERT … SELECT, row by row. */
    method Backfill(order: seq<int>)
      requires forall k :: 0 <= k < |order| ==> order[k] in logs
      modifies this`index
      ensures View() == Backfilled(old(View()), order) && logs == old(logs) && users == old(users)
    {
      for i := 0 to |order|
        invariant View() == Backfilled(old(View()), order[..i])
      {
        var row := logs[order[i]];
        var name := if row.userId in users then users[row.userId] else "";
        index := index + multiset{Posting(order[i], Coalesce(row.prompt), Coalesce(row.response), name)};
        assert order[..i + 1][..i] == order[..i];
        BackfillOnlyIndexes(old(View()), order[..i]);
      }
      assert order[..|order|] == order;
    }

    /** deleteUser: the user's logs first, then the user, in one transaction. */
    method DeleteUser(id: int, order: seq<int>)
      requires RowsOfUser(View(), id, order)
      modifies this
      ensures View() == UserRowDeleted(RowsDeleted(old(View()), order), id)
      ensures users == old(users) - {id}
      ensures forall r :: r in logs <==> r in old(logs) && old(logs)[r].userId != id
      ensures forall r :: r in logs ==> logs[r] == old(logs)[r]
    {
      DeleteRows(order);
      users := users - {id};
    }
  }

  // ── Runs ─────────────────────────────────────────────────────────────────────

  datatype Event =
    | CreateUser(name: string)
    | WriteLog(row: Row)                       // the asynchronous writer, possibly after the user is gone
    | DeleteUser(id: int, order: seq<int>)
    | DeleteRows(order: seq<int>)              // one prune batch, or a reset when it names every row

  /** A log row is only ever written for a user that was created at some time. */
  predicate Possible(s: Db, e: Event) {
    match e
    case WriteLog(row) => 0 < row.userId < s.nextUser
    case DeleteUser(id, order) => RowsOfUser(s, id, order)
    case _ => true
  }

  function Step(s: Db, e: Event): Db {
    if !Possible(s, e) then s else
    match e
    case CreateUser(name) => UserCreated(s, name)
    case WriteLog(row) => LogInserted(s, row)
    case DeleteUser(id, order) => UserRowDeleted(RowsDeleted(s, order), id)
    case DeleteRows(order) => RowsDeleted(s, order)
  }

  function Run(s: Db, events: seq<Event>): Db
    decreases |events|
  {
    if events == [] then s else Run(Step(s, events[0]), events[1..])
  }

  // ── The index equals the image of the rows ───────────────────────────────────

  ghost predicate InStep(s: Db) {
    forall p :: s.index[p] == if p.rowid in s.logs && p == ImageOf(s.users, p.rowid, s.logs[p.rowid]) then 1 else 0
  }

  /** Ids are handed out once, and rows only refer to ids already handed out. */
  predicate IdsFresh(s: Db) {
    && (forall u :: u in s.users ==> u < s.nextUser)
    && (forall r :: r in s.logs ==> r < s.nextLog && s.logs[r].userId < s.nextUser)
  }

  ghost predicate Inv(s: Db) {
    s.exact && InStep(s) && IdsFresh(s)
  }

  lemma CreateKeepsInv(s: Db, name: string)
    requires Inv(s)
    ensures Inv(UserCreated(s, name))
  {
    var t := UserCreated(s, name);
    forall p ensures t.index[p] ==
      if p.rowid in t.logs && p == ImageOf(t.users, p.rowid, t.logs[p.rowid]) then 1 else 0 {
      if p.rowid in s.logs { assert s.logs[p.rowid].userId < s.nextUser; }
    }
  }

  lemma InsertKeepsInv(s: Db, row: Row)
    requires Inv(s) && row.userId < s.nextUser
    ensures Inv(LogInserted(s, row))
  {
  }

  lemma RowDeleteKeepsInv(s: Db, id: int)
    requires Inv(s)
    ensures Inv(RowDeleted(s, id))
  {
    if id in s.logs {
      assert s.index[ImageOf(s.users, id, s.logs[id])] == 1;
    }
  }

  /** Every 'delete' of the statement supplied exactly what was indexed, whatever the visiting order. */
  lemma {:induction false} RowsDeleteKeepsInv(s: Db, order: seq<int>)
    requires Inv(s)
    ensures var t := RowsDeleted(s, order);
            && Inv(t) && t.users == s.users && t.nextUser == s.nextUser && t.nextLog == s.nextLog
            && (forall r :: r in t.logs <==> r in s.logs && r !in order)
            && (forall r :: r in t.logs ==> t.logs[r] == s.logs[r])
    decreases |order|
  {
    if order != [] {
      var rest, id := order[..|order| - 1], order[|order| - 1];
      RowsDeleteKeepsInv(s, rest);
      RowDeleteKeepsInv(RowsDeleted(s, rest), id);
      assert order == rest + [id];
    }
  }

  lemma DeleteUserKeepsInv(s: Db, id: int, order: seq<int>)
    requires Inv(s) && RowsOfUser(s, id, order)
    ensures Inv(UserRowDeleted(RowsDeleted(s, order), id))
  {
    RowsDeleteKeepsInv(s, order);
    var t := RowsDeleted(s, order);
    var u := UserRowDeleted(t, id);
    forall p ensures u.index[p] ==
      if p.rowid in u.logs && p == ImageOf(u.users, p.rowid, u.logs[p.rowid]) then 1 else 0 {
      if p.rowid in t.logs { assert t.logs[p.rowid] == s.logs[p.rowid]; }
    }
  }

  lemma StepKeepsInv(s: Db, e: Event)
    requires Inv(s)
    ensures Inv(Step(s, e))
  {
    if Possible(s, e) {
      match e
      case CreateUser(name) => CreateKeepsInv(s, name);
      case WriteLog(row) => InsertKeepsInv(s, row);
      case DeleteUser(id, order) => DeleteUserKeepsInv(s, id, order);
      case DeleteRows(order) => RowsDeleteKeepsInv(s, order);
    }
  }

  lemma {:induction false} RunKeepsInv(s: Db, events: seq<Event>)
    requires Inv(s)
    ensures Inv(Run(s, events))
    decreases |events|
  {
    if events != [] {
      StepKeepsInv(s, events[0]);
      RunKeepsInv(Step(s, events[0]), events[1..]);
    }
  }

  /** Over every run: no 'delete' ever supplied values that were not indexed, and the index holds each
      row's image exactly once and nothing else. */
  lemma IndexStaysInStep(events: seq<Event>)
    ensures var s := Run(EMPTY, events);
            && s.exact
            && forall p :: s.index[p] == if p.rowid in s.logs && Shows(p, s.logs[p.rowid], s.users) then 1 else 0
  {
    RunKeepsInv(EMPTY, events);
  }

  // ── Backfill ─────────────────────────────────────────────────────────────────

  /** The one-shot backfill inserts one posting per row, in whatever order the join yields them. */
  function Backfilled(s: Db, order: seq<int>): Db
    requires forall k :: 0 <= k < |order| ==> order[k] in s.logs
    decreases |order|
  {
    if order == [] then s
    else
      var rest, id := order[..|order| - 1], order[|order| - 1];
      Backfilled(s, rest).(index := Backfilled(s, rest).index + multiset{ImageOf(s.users, id, s.logs[id])})
  }

  lemma {:induction false} BackfillCounts(s: Db, order: seq<int>, p: Posting)
    requires forall k :: 0 <= k < |order| ==> order[k] in s.logs
    requires s.index == multiset{}
    ensures Backfilled(s, order).index[p]
         == if p.rowid in s.logs && p == ImageOf(s.users, p.rowid, s.logs[p.rowid]) then multiset(order)[p.rowid] else 0
    decreases |order|
  {
    if order != [] {
      var rest, id := order[..|order| - 1], order[|order| - 1];
      BackfillCounts(s, rest, p);
      OneMorePosting(Backfilled(s, rest).index, ImageOf(s.users, id, s.logs[id]), p);
      OneMoreRow(rest, id, p.rowid);
      assert order == rest + [id];
      assert ImageOf(s.users, id, s.logs[id]).rowid == id;
    }
  }

  lemma OneMorePosting(index: multiset<Posting>, image: Posting, p: Posting)
    ensures (index + multiset{image})[p] == index[p] + if p == image then 1 else 0
  {
  }

  lemma OneMoreRow(order: seq<int>, id: int, r: int)
    ensures multiset(order + [id])[r] == multiset(order)[r] + if r == id then 1 else 0
  {
    assert multiset(order + [id]) == multiset(order) + multiset{id};
  }

  lemma {:induction false} BackfillOnlyIndexes(s: Db, order: seq<int>)
    requires forall k :: 0 <= k < |order| ==> order[k] in s.logs
    ensures Backfilled(s, order) == s.(index := Backfilled(s, order).index)
    decreases |order|
  {
    if order != [] { BackfillOnlyIndexes(s, order[..|order| - 1]); }
  }

  lemma BackfillEstablishesInv(s: Db, order: seq<int>)
    requires s.exact && IdsFresh(s) && s.index == multiset{}
    requires forall k :: 0 <= k < |order| ==> order[k] in s.logs
    requires forall r :: r in s.logs ==> r in order
    requires forall j, k :: 0 <= j < k < |order| ==> order[j] != order[k]
    ensures Inv(Backfilled(s, order))
  {
    var t := Backfilled(s, order);
    BackfillOnlyIndexes(s, order);
    forall p ensures t.index[p] ==
      if p.rowid in t.logs && p == ImageOf(t.users, p.rowid, t.logs[p.rowid]) then 1 else 0 {
      BackfillCounts(s, order, p);
      if p.rowid in s.logs { OnceEach(order, p.rowid); }
    }
  }

  /** A database whose index is empty is brought into step by the backfill, and stays so in every run. */
  lemma BackfillThenRun(s: Db, order: seq<int>, events: seq<Event>)
    requires s.exact && IdsFresh(s) && s.index == multiset{}
    requires forall k :: 0 <= k < |order| ==> order[k] in s.logs
    requires forall r :: r in s.logs ==> r in order
    requires forall j, k :: 0 <= j < k < |order| ==> order[j] != order[k]
    ensures Run(Backfilled(s, order), events).exact && InStep(Run(Backfilled(s, order), events))
  {
    BackfillEstablishesInv(s, order);
    RunKeepsInv(Backfilled(s, order), events);
  }

  lemma {:induction false} OnceEach(order: seq<int>, id: int)
    requires id in order && forall j, k :: 0 <= j < k < |order| ==> order[j] != order[k]
    ensures multiset(order)[id] == 1
    decreases |order|
  {
    var rest, last := order[..|order| - 1], order[|order| - 1];
    assert order == rest + [last];
    if last == id {
      assert id !in rest;
      assert multiset(rest)[id] == 0;
    } else {
      OnceEach(rest, id);
    }
  }

  // ── Why the order inside deleteUser matters ──────────────────────────────────

  /** With the user deleted first, the triggers would look the name up too late: the first of the user's
      rows to go is removed under '' although it was indexed under the name, and the index is corrupt. */
  lemma UserFirstCorrupts(s: Db, id: int, row: int)
    requires Inv(s) && id in s.users && s.users[id] != "" && row in s.logs && s.logs[row].userId == id
    ensures !RowDeleted(UserRowDeleted(s, id), row).exact
    ensures RowDeleted(UserRowDeleted(s, id), row).index[ImageOf(s.users, row, s.logs[row])] == 1
  {
    var late := ImageOf(UserRowDeleted(s, id).users, row, s.logs[row]);
    assert s.index[late] == 0;
    assert s.index[ImageOf(s.users, row, s.logs[row])] == 1;
  }
}
