/**
 Cutting text to a byte budget without splitting a character. Validity is section 4 of RFC 3629.
*/
module Truncation {
  type byte = b: int | 0 <= b < 256

  type Text = seq<byte>

  predicate Between(b: byte, low: int, high: int) { low <= b <= high }

  predicate Tail(b: byte) { Between(b, 0x80, 0xBF) }

  /** utf8.RuneStart: anything but a continuation byte. */
  predicate RuneStart(b: byte) { !Tail(b) }

  /** How far into a character a reader of well-formed text is. The lead bytes E0, ED, F0 and F4 narrow
      the byte that follows them: no overlong forms, no surrogates, nothing above U+10FFFF. */
  datatype Reading = Start | More(tails: int) | AfterE0 | AfterED | AfterF0 | AfterF4 | Malformed

  /** The syntax of UTF-8, byte by byte. */
  function Next(q: Reading, b: byte): Reading {
    match q
    case Start =>
      if b <= 0x7F then Start
      else if Between(b, 0xC2, 0xDF) then More(1)
      else if b == 0xE0 then AfterE0
      else if b == 0xED then AfterED
      else if Between(b, 0xE1, 0xEF) then More(2)
      else if b == 0xF0 then AfterF0
      else if b == 0xF4 then AfterF4
      else if Between(b, 0xF1, 0xF3) then More(3)
      else Malformed
    case More(n) => if !Tail(b) then Malformed else if n <= 1 then Start else More(n - 1)
    case AfterE0 => if Between(b, 0xA0, 0xBF) then More(1) else Malformed
    case AfterED => if Between(b, 0x80, 0x9F) then More(1) else Malformed
    case AfterF0 => if Between(b, 0x90, 0xBF) then More(2) else Malformed
    case AfterF4 => if Between(b, 0x80, 0x8F) then More(2) else Malformed
    case Malformed => Malformed
  }

  function Read(q: Reading, s: Text): Reading {
    if s == [] then q else Next(Read(q, s[..|s| - 1]), s[|s| - 1])
  }

  predicate Utf8(s: Text) {
    Read(Start, s).Start?
  }

  lemma {:induction false} ReadConcat(q: Reading, a: Text, b: Text)
    ensures Read(q, a + b) == Read(Read(q, a), b)
    decreases |b|
  {
    if b == [] {
      assert a + b == a;
    } else {
      assert (a + b)[..|a + b| - 1] == a + b[..|b| - 1];
      ReadConcat(q, a, b[..|b| - 1]);
    }
  }

  lemma {:induction false} MalformedStays(s: Text)
    ensures Read(Malformed, s) == Malformed
  {
    if s != [] { MalformedStays(s[..|s| - 1]); }
  }

  /** One byte of valid text, seen from the state before it. */
  lemma ByteOfValid(s: Text, k: nat)
    requires Utf8(s) && k < |s|
    ensures Read(Start, s[..k + 1]) == Next(Read(Start, s[..k]), s[k]) != Malformed
  {
    assert s[..k + 1][..k] == s[..k];
    assert s == s[..k + 1] + s[k + 1..];
    ReadConcat(Start, s[..k + 1], s[k + 1..]);
    MalformedStays(s[k + 1..]);
  }

  /** One character, as section 4 of RFC 3629 spells it: UTF8-1, UTF8-2, UTF8-3 or UTF8-4. */
  predicate IsChar(c: Text) {
    || (|c| == 1 && c[0] <= 0x7F)
    || (|c| == 2 && 0xC2 <= c[0] <= 0xDF && Tail(c[1]))
    || (|c| == 3 && Tail(c[2])
        && (|| (c[0] == 0xE0 && 0xA0 <= c[1] <= 0xBF)
            || (0xE1 <= c[0] <= 0xEC && Tail(c[1]))
            || (c[0] == 0xED && 0x80 <= c[1] <= 0x9F)
            || (0xEE <= c[0] <= 0xEF && Tail(c[1]))))
    || (|c| == 4 && Tail(c[2]) && Tail(c[3])
        && (|| (c[0] == 0xF0 && 0x90 <= c[1] <= 0xBF)
            || (0xF1 <= c[0] <= 0xF3 && Tail(c[1]))
            || (c[0] == 0xF4 && 0x80 <= c[1] <= 0x8F)))
  }

  /** Reading on from a state, byte by byte from the front. */
  lemma ReadFirst(q: Reading, s: Text)
    requires s != []
    ensures Read(q, s) == Read(Next(q, s[0]), s[1..])
  {
    assert s == [s[0]] + s[1..];
    ReadConcat(q, [s[0]], s[1..]);
    assert [s[0]][..0] == [] && Read(q, [s[0]]) == Next(Read(q, []), s[0]);
  }

  lemma ReadAll(q: Reading, c: Text)
    requires |c| <= 4
    ensures Read(q, c) == if |c| == 0 then q
                          else if |c| == 1 then Next(q, c[0])
                          else if |c| == 2 then Next(Next(q, c[0]), c[1])
                          else if |c| == 3 then Next(Next(Next(q, c[0]), c[1]), c[2])
                          else Next(Next(Next(Next(q, c[0]), c[1]), c[2]), c[3])
  {
    if |c| > 0 { ReadFirst(q, c); ReadShort(Next(q, c[0]), c[1..]); }
  }

  lemma ReadShort(q: Reading, c: Text)
    requires |c| <= 3
    ensures Read(q, c) == if |c| == 0 then q
                          else if |c| == 1 then Next(q, c[0])
                          else if |c| == 2 then Next(Next(q, c[0]), c[1])
                          else Next(Next(Next(q, c[0]), c[1]), c[2])
  {
    if |c| > 0 {
      ReadFirst(q, c);
      if |c| > 1 {
        ReadFirst(Next(q, c[0]), c[1..]);
        if |c| > 2 { ReadFirst(Next(Next(q, c[0]), c[1]), c[1..][1..]); }
      }
    }
  }

  lemma CharIsRead(c: Text)
    requires IsChar(c)
    ensures Read(Start, c) == Start
  {
    ReadAll(Start, c);
  }

  /** How many bytes the character with this lead byte has. */
  function LengthOf(lead: byte): nat {
    if lead <= 0x7F then 1 else if lead <= 0xDF then 2 else if lead <= 0xEF then 3 else 4
  }

  lemma FrontIsChar(s: Text)
    requires Utf8(s) && s != []
    ensures LengthOf(s[0]) <= |s| && IsChar(s[..LengthOf(s[0])])
  {
    var n := LengthOf(s[0]);
    if |s| < n {
      ReadAll(Start, s);
    } else {
      ReadAll(Start, s[..n]);
      assert s == s[..n] + s[n..];
      ReadConcat(Start, s[..n], s[n..]);
      MalformedStays(s[n..]);
    }
  }

  lemma AfterOneCharacter(s: Text, n: nat)
    requires n <= |s| && Read(Start, s[..n]) == Start
    ensures Utf8(s) <==> Utf8(s[n..])
  {
    assert s == s[..n] + s[n..];
    ReadConcat(Start, s[..n], s[n..]);
  }

  /** A well-formed character in front, and the rest in order. */
  predicate Splits(s: Text, n: nat) {
    1 <= n <= 4 && n <= |s| && IsChar(s[..n]) && Utf8(s[n..])
  }

  /** Reading byte by byte accepts exactly the sequences of well-formed characters. */
  lemma Utf8IsCharacters(s: Text)
    ensures Utf8(s) <==> s == [] || exists n: nat :: Splits(s, n)
  {
    if s != [] && Utf8(s) {
      var n := LengthOf(s[0]);
      FrontIsChar(s);
      CharIsRead(s[..n]);
      AfterOneCharacter(s, n);
      assert Splits(s, n);
    }
    if n: nat :| Splits(s, n) {
      CharIsRead(s[..n]);
      AfterOneCharacter(s, n);
    }
  }

  // ── The cut ──────────────────────────────────────────────────────────────────

  /** The last character start at or before position `n`. */
  function StartAt(s: Text, n: nat): (k: nat)
    requires n < |s|
    ensures k <= n && (k == 0 || RuneStart(s[k]))
    ensures forall j :: k < j <= n ==> !RuneStart(s[j])
  {
    if n == 0 || RuneStart(s[n]) then n else StartAt(s, n - 1)
  }

  function Truncated(s: Text, n: nat): Text {
    if |s| <= n then s else s[..StartAt(s, n)]
  }

  method TruncateTo(s: Text, limit: nat) returns (r: Text)
    ensures r == Truncated(s, limit)
  {
    var n := limit;
    if |s| <= n {
      return s;
    }
    while n > 0 && !RuneStart(s[n])
      invariant 0 <= n <= limit && StartAt(s, n) == StartAt(s, limit)
    {
      n := n - 1;
    }
    return s[..n];
  }

  method TruncateInput(text: Text, maxMsgLen: nat) returns (r: Text)
    ensures r == Truncated(text, maxMsgLen)
  {
    if |text| <= maxMsgLen {
      return text;
    }
    var cut := maxMsgLen;
    while cut > 0 && !RuneStart(text[cut])
      invariant 0 <= cut <= maxMsgLen && forall j :: cut < j <= maxMsgLen ==> !RuneStart(text[j])
    {
      cut := cut - 1;
    }
    return text[..cut];
  }

  /** In valid text the valid prefixes are exactly those that end before a character start. */
  lemma BoundariesAreStarts(s: Text, k: nat)
    requires Utf8(s) && k < |s|
    ensures Utf8(s[..k]) <==> RuneStart(s[k])
  {
    ByteOfValid(s, k);
  }

  /** How many bytes of the current character have been read at most. */
  function Depth(q: Reading): nat {
    match q
    case Start => 0
    case More(n) => if n == 3 then 1 else if n == 2 then 2 else 3
    case _ => 1
  }

  lemma {:induction false} StartIsWithinDepth(s: Text, k: nat)
    requires Utf8(s) && k <= |s|
    ensures var q := Read(Start, s[..k]);
            && q != Malformed && (q.More? ==> 1 <= q.tails <= 3)
            && (q != Start ==> k > 0 && k - StartAt(s, k - 1) <= Depth(q) && RuneStart(s[StartAt(s, k - 1)]))
    decreases k
  {
    if k > 0 {
      StartIsWithinDepth(s, k - 1);
      ByteOfValid(s, k - 1);
    } else {
      assert s[..0] == [];
    }
  }

  /** A character start is never more than three bytes away. */
  lemma StartIsNear(s: Text, n: nat)
    requires Utf8(s) && n < |s|
    ensures StartAt(s, n) + 3 >= n && RuneStart(s[StartAt(s, n)])
  {
    StartIsWithinDepth(s, n);
    BoundariesAreStarts(s, n);
  }

  /** Truncating valid text keeps its longest valid prefix within the bound and gives up at most 3 bytes. */
  lemma TruncationIsLongest(s: Text, n: nat)
    requires Utf8(s)
    ensures var r := Truncated(s, n);
            && Utf8(r) && r <= s && |r| <= n
            && (forall m :: 0 <= m <= n && m <= |s| && Utf8(s[..m]) ==> m <= |r|)
            && (|s| > n ==> |r| + 3 >= n)
  {
    if |s| > n {
      StartIsNear(s, n);
      BoundariesAreStarts(s, StartAt(s, n));
      forall m | 0 <= m <= n && Utf8(s[..m]) ensures m <= StartAt(s, n) { BoundariesAreStarts(s, m); }
    }
  }

  // ── The audit buffer of a stream ─────────────────────────────────────────────

  function Written(limit: int, buf: Text, s: Text): Text {
    if limit - |buf| <= 0 then buf else buf + Truncated(s, limit - |buf|)
  }

  class StreamAudit {
    const limit: int
    var buf: Text

    constructor (limit: int)
      ensures this.limit == limit && buf == []
    {
      this.limit, buf := limit, [];
    }

    method Write(s: Text)
      modifies this
      ensures buf == Written(limit, old(buf), s)
    {
      var room := limit - |buf|;
      if room <= 0 || s == [] {
        return;
      }
      var part := s;
      if |part| > room {
        while room > 0 && !RuneStart(part[room])
          invariant 0 <= room <= limit - |buf| && StartAt(s, room) == StartAt(s, limit - |buf|)
        {
          room := room - 1;
        }
        part := part[..room];
      }
      buf := buf + part;
    }
  }

  function WrittenAll(limit: int, ws: seq<Text>): Text {
    if ws == [] then [] else Written(limit, WrittenAll(limit, ws[..|ws| - 1]), ws[|ws| - 1])
  }

  function Concat(ws: seq<Text>): Text {
    if ws == [] then [] else Concat(ws[..|ws| - 1]) + ws[|ws| - 1]
  }

  lemma ValidConcat(a: Text, b: Text)
    requires Utf8(a) && Utf8(b)
    ensures Utf8(a + b)
  {
    ReadConcat(Start, a, b);
  }

  lemma {:induction false} ConcatIsValid(ws: seq<Text>)
    requires forall i :: 0 <= i < |ws| ==> Utf8(ws[i])
    ensures Utf8(Concat(ws))
  {
    if ws != [] {
      ConcatIsValid(ws[..|ws| - 1]);
      ValidConcat(Concat(ws[..|ws| - 1]), ws[|ws| - 1]);
    }
  }

  /** Text after the cut does not move it. */
  lemma {:induction false} CutIgnoresTheRest(a: Text, b: Text, n: nat)
    requires n < |a|
    ensures StartAt(a + b, n) == StartAt(a, n)
  {
    if n > 0 && !RuneStart(a[n]) { CutIgnoresTheRest(a, b, n - 1); }
  }

  /** Nor does valid text before it. */
  lemma {:induction false} CutAfter(a: Text, b: Text, n: nat)
    requires Utf8(b) && n < |b|
    ensures StartAt(a + b, |a| + n) == |a| + StartAt(b, n)
  {
    if n == 0 {
      BoundariesAreStarts(b, 0);
      assert (a + b)[|a|] == b[0];
    } else if !RuneStart(b[n]) {
      CutAfter(a, b, n - 1);
    }
  }

  /** The buffer after text `all` went in: all of it while it fits; else its longest valid prefix that
      fits, followed by at most three stray bytes. Always valid, always within the limit. */
  predicate Audited(limit: nat, all: Text, buf: Text) {
    && Utf8(buf) && |buf| <= limit
    && Truncated(all, limit) <= buf && |buf| <= |Truncated(all, limit)| + 3
    && (|all| <= limit ==> buf == all)
  }

  /** Over any sequence of writes of valid text. */
  lemma {:induction false} AuditIsAPrefix(limit: nat, ws: seq<Text>)
    requires forall i :: 0 <= i < |ws| ==> Utf8(ws[i])
    ensures Audited(limit, Concat(ws), WrittenAll(limit, ws))
  {
    if ws != [] {
      var before, w := ws[..|ws| - 1], ws[|ws| - 1];
      AuditIsAPrefix(limit, before);
      ConcatIsValid(before);
      WriteKeepsPrefix(limit, Concat(before), WrittenAll(limit, before), w);
    }
  }

  lemma WriteKeepsPrefix(limit: nat, all: Text, buf: Text, w: Text)
    requires Utf8(all) && Utf8(w) && Audited(limit, all, buf)
    ensures Audited(limit, all + w, Written(limit, buf, w))
  {
    WriteStaysValid(limit, buf, w);
    if |all| <= limit {
      FirstCut(limit, all, w);
    } else {
      TruncationIsLongest(all, limit);
      TruncatedAlready(limit, all, w);
    }
  }

  lemma WriteStaysValid(limit: nat, buf: Text, w: Text)
    requires Utf8(buf) && Utf8(w) && |buf| <= limit
    ensures Utf8(Written(limit, buf, w)) && |Written(limit, buf, w)| <= limit && buf <= Written(limit, buf, w)
  {
    TruncationIsLongest(w, limit - |buf|);
    ValidConcat(buf, Truncated(w, limit - |buf|));
  }

  lemma FirstCut(limit: nat, all: Text, w: Text)
    requires Utf8(w) && |all| <= limit
    ensures Written(limit, all, w) == Truncated(all + w, limit)
  {
    var room := limit - |all|;
    if |w| > room {
      CutAfter(all, w, room);
      assert (all + w)[..|all| + StartAt(w, room)] == all + w[..StartAt(w, room)];
      if room == 0 { assert all + [] == all; }
    }
  }

  lemma TruncatedAlready(limit: nat, all: Text, w: Text)
    requires |all| > limit
    ensures Truncated(all + w, limit) == Truncated(all, limit)
  {
    CutIgnoresTheRest(all, w, limit);
  }

  /** Every write that comes after the first cut is empty or begins with a character that does not fit into
      the bytes the cut has left over. */
  predicate NothingStrays(limit: nat, ws: seq<Text>) {
    forall i :: 0 <= i < |ws| && |Concat(ws[..i])| > limit ==> StraysNot(limit, Concat(ws), ws[i])
  }

  predicate StraysNot(limit: nat, all: Text, w: Text) {
    Truncated(w, limit - |Truncated(all, limit)|) == []
  }

  lemma {:induction false} ConcatGrows(ws: seq<Text>, i: nat)
    requires i <= |ws|
    ensures |Concat(ws[..i])| <= |Concat(ws)|
    decreases |ws|
  {
    if i == |ws| {
      assert ws[..i] == ws;
    } else {
      assert ws[..|ws| - 1][..i] == ws[..i];
      ConcatGrows(ws[..|ws| - 1], i);
    }
  }

  lemma NothingStraysSnoc(limit: nat, before: seq<Text>, w: Text)
    ensures NothingStrays(limit, before + [w]) <==>
              |Concat(before)| <= limit || (NothingStrays(limit, before) && StraysNot(limit, Concat(before), w))
  {
    var ws := before + [w];
    assert ws[..|before|] == before;
    forall i | 0 <= i < |before| ensures ws[..i] == before[..i] && ws[i] == before[i]
      && |Concat(ws[..i])| <= |Concat(before)|
    {
      ConcatGrows(before, i);
    }
    if |Concat(before)| > limit { TruncatedAlready(limit, Concat(before), w); }
  }

  /** The buffer is the longest valid prefix that fits, with no stray byte, exactly then. */
  lemma {:induction false} AuditIsExactWhenNothingStrays(limit: nat, ws: seq<Text>)
    requires forall i :: 0 <= i < |ws| ==> Utf8(ws[i])
    ensures WrittenAll(limit, ws) == Truncated(Concat(ws), limit) <==> NothingStrays(limit, ws)
  {
    if ws != [] {
      var before, w := ws[..|ws| - 1], ws[|ws| - 1];
      assert ws == before + [w];
      AuditIsExactWhenNothingStrays(limit, before);
      AuditIsAPrefix(limit, before);
      NothingStraysSnoc(limit, before, w);
      OneMoreWrite(limit, Concat(before), WrittenAll(limit, before), w);
    }
  }

  lemma OneMoreWrite(limit: nat, all: Text, buf: Text, w: Text)
    requires Utf8(w) && Audited(limit, all, buf)
    ensures Written(limit, buf, w) == Truncated(all + w, limit)
       <==> |all| <= limit || (buf == Truncated(all, limit) && StraysNot(limit, all, w))
  {
    if |all| <= limit {
      FirstCut(limit, all, w);
    } else {
      TruncatedAlready(limit, all, w);
      var room := limit - |buf|;
      assert Written(limit, buf, w) == buf + if room <= 0 then [] else Truncated(w, room);
      if room == 0 { assert Truncated(w, room) == []; }
    }
  }

  /** The stray bytes are real: a character that does not fit is dropped, and a later one that does is kept. */
  lemma StrayBytesHappen(euro: Text, a: Text)
    requires euro == [0xE2, 0x82, 0xAC] && a == [0x61]
    ensures Utf8(euro) && Utf8(a)
    ensures WrittenAll(2, [euro, a]) == a && !(a <= Concat([euro, a]))
  {
    assert Read(Start, euro[..1]) == More(2) by { assert euro[..1][..0] == []; }
    assert Read(Start, euro[..2]) == More(1) by { assert euro[..2][..1] == euro[..1]; }
    assert Read(Start, []) == Start && a[..0] == [];
    assert [euro, a][..1] == [euro] && [euro][..0] == [];
    assert StartAt(euro, 2) == 0;
    assert WrittenAll(2, [euro]) == [];
    assert Concat([euro]) == euro;
    assert Concat([euro, a])[0] == 0xE2;
  }
}
