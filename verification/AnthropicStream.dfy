/**
 The Anthropic streaming front-end: flat OpenAI deltas become explicitly opened, indexed
 and closed content blocks.
*/
module AnthropicStream {
  import opened Prelude
  import opened Wire
  import opened Transducer

  /** An upstream id, or one the gateway mints because the engine sent none. */
  datatype Id = Issued(id: string) | Minted

  function IdOf(id: string): Id {
    if id == "" then Minted else Issued(id)
  }

  datatype Kind = TextKind | ToolKind(id: Id, name: string)

  datatype StopReason = EndTurn | MaxTokens | ToolUse

  datatype Event =
    | MessageStart
    | BlockStart(index: int, kind: Kind)
    | TextDelta(index: int, text: string)
    | JsonDelta(index: int, json: string)
    | BlockStop(index: int)
    | MessageDelta(stop: StopReason, usage: Usage)
    | MessageStop

  function StopReasonFromFinish(finish: string): StopReason {
    if finish == "length" then MaxTokens
    else if finish == "tool_calls" || finish == "function_call" then ToolUse
    else EndTurn
  }

  // ── The translator, one piece of a delta at a time ───────────────────────────

  datatype Open = Nothing | OpenText | OpenTool

  datatype Translator = Translator(open: Open, blockIndex: int, toolIndex: int, sawTool: bool,
                                  finish: string, usage: Usage)

  const FRESH := Translator(Nothing, -1, 0, false, "", Usage(0, 0))

  datatype Piece = TextPiece(text: string) | ToolPiece(call: Fragment)
                   | FinishPiece(reason: string) | UsagePiece(usage: Usage)

  function CallPieces(calls: seq<Fragment>): (ps: seq<Piece>)
    ensures |ps| == |calls|
  {
    seq(|calls|, i requires 0 <= i < |calls| => ToolPiece(calls[i]))
  }

  function ChoicePieces(c: Choice): seq<Piece> {
    [TextPiece(c.delta.content)] + CallPieces(c.delta.toolCalls)
    + (if c.finish.Some? then [FinishPiece(c.finish.value)] else [])
  }

  function ChoicesPieces(cs: seq<Choice>): seq<Piece> {
    FlatMap(ChoicePieces, cs)
  }

  /** A payload that does not parse as a chunk (None) contributes nothing. */
  function Pieces(payload: Option<Chunk>): seq<Piece> {
    match payload
    case None => []
    case Some(c) => (if c.usage.Some? then [UsagePiece(c.usage.value)] else []) + ChoicesPieces(c.choices)
  }

  function AllPieces(payloads: seq<Option<Chunk>>): seq<Piece> {
    FlatMap(Pieces, payloads)
  }

  function Closing(t: Translator): seq<Event> {
    if t.open.Nothing? then [] else [BlockStop(t.blockIndex)]
  }

  function FeedText(t: Translator, text: string): (Translator, seq<Event>) {
    if text == "" then (t, [])
    else if t.open.OpenText? then (t, [TextDelta(t.blockIndex, text)])
    else
      var i := t.blockIndex + 1;
      (t.(open := OpenText, blockIndex := i), Closing(t) + [BlockStart(i, TextKind), TextDelta(i, text)])
  }

  function FeedTool(t: Translator, f: Fragment): (Translator, seq<Event>) {
    var reopen := !t.open.OpenTool? || t.toolIndex != f.index;
    var i := if reopen then t.blockIndex + 1 else t.blockIndex;
    (if reopen then t.(open := OpenTool, blockIndex := i, toolIndex := f.index, sawTool := true) else t,
     (if reopen then Closing(t) + [BlockStart(i, ToolKind(IdOf(f.id), f.name))] else [])
     + (if f.args != "" then [JsonDelta(i, f.args)] else []))
  }

  function Feed(t: Translator, p: Piece): (Translator, seq<Event>) {
    match p
    case TextPiece(s) => FeedText(t, s)
    case ToolPiece(f) => FeedTool(t, f)
    case FinishPiece(r) => (t.(finish := r), [])
    case UsagePiece(u) => (t.(usage := u), [])
  }

  function Ending(t: Translator): seq<Event> {
    Closing(t) + [MessageDelta(if t.sawTool then ToolUse else StopReasonFromFinish(t.finish), t.usage), MessageStop]
  }

  /** Everything sent for one streamed reply: start, one chunk call per payload, end. */
  function Conversation(payloads: seq<Option<Chunk>>): seq<Event> {
    [MessageStart] + Sent(Feed, FRESH, AllPieces(payloads)) + Ending(After(Feed, FRESH, AllPieces(payloads)))
  }

  /** The imperative translator. */
  class Stream {
    var open: Open
    var blockIndex: int
    var toolIndex: int
    var sawTool: bool
    var finish: string
    var usage: Usage

    function View(): Translator
      reads this
    {
      Translator(open, blockIndex, toolIndex, sawTool, finish, usage)
    }

    constructor ()
      ensures View() == FRESH
    {
      open, blockIndex, toolIndex, sawTool, finish, usage := Nothing, -1, 0, false, "", Usage(0, 0);
    }

    method CloseBlock() returns (events: seq<Event>)
      modifies this
      ensures events == Closing(old(View()))
      ensures View() == old(View()).(open := Nothing)
    {
      if open == Nothing {
        return [];
      }
      open := Nothing;
      events := [BlockStop(blockIndex)];
    }

    method Content(text: string) returns (events: seq<Event>)
      modifies this
      ensures View() == FeedText(old(View()), text).0 && events == FeedText(old(View()), text).1
    {
      events := [];
      if text != "" {
        if open != OpenText {
          events := CloseBlock();
          blockIndex := blockIndex + 1;
          open := OpenText;
          events := events + [BlockStart(blockIndex, TextKind)];
        }
        events := events + [TextDelta(blockIndex, text)];
      }
    }

    method ToolFragment(f: Fragment) returns (events: seq<Event>)
      modifies this
      ensures View() == FeedTool(old(View()), f).0 && events == FeedTool(old(View()), f).1
    {
      events := [];
      if open != OpenTool || toolIndex != f.index {
        events := CloseBlock();
        blockIndex := blockIndex + 1;
        open := OpenTool;
        toolIndex := f.index;
        sawTool := true;
        events := events + [BlockStart(blockIndex, ToolKind(IdOf(f.id), f.name))];
      }
      if f.args != "" {
        events := events + [JsonDelta(blockIndex, f.args)];
      }
    }

    /** One choice of a chunk: text, then each tool fragment, then the finish reason. */
    method Choice(c: Choice) returns (events: seq<Event>)
      modifies this
      ensures View() == After(Feed, old(View()), ChoicePieces(c)) && events == Sent(Feed, old(View()), ChoicePieces(c))
    {
      ghost var start := View();
      ghost var text, calls := [TextPiece(c.delta.content)], CallPieces(c.delta.toolCalls);
      events := Content(c.delta.content);
      Single(Feed, start, TextPiece(c.delta.content));
      var more := ToolFragments(c.delta.toolCalls);
      events := events + more;
      Concat(Feed, start, text, calls);
      if c.finish.Some? {
        finish := c.finish.value;
        Snoc(Feed, start, text + calls, FinishPiece(c.finish.value));
      } else {
        assert text + calls + [] == text + calls;
      }
    }

    method ToolFragments(fs: seq<Fragment>) returns (events: seq<Event>)
      modifies this
      ensures View() == After(Feed, old(View()), CallPieces(fs)) && events == Sent(Feed, old(View()), CallPieces(fs))
    {
      ghost var start, calls := View(), CallPieces(fs);
      events := [];
      for i := 0 to |fs|
        invariant View() == After(Feed, start, calls[..i]) && events == Sent(Feed, start, calls[..i])
      {
        var more := ToolFragment(fs[i]);
        events := events + more;
        Snoc(Feed, start, calls[..i], calls[i]);
        assert calls[..i + 1] == calls[..i] + [calls[i]];
      }
      assert calls[..|fs|] == calls;
    }

    method Choices(cs: seq<Choice>) returns (events: seq<Event>)
      modifies this
      ensures View() == After(Feed, old(View()), ChoicesPieces(cs))
      ensures events == Sent(Feed, old(View()), ChoicesPieces(cs))
    {
      ghost var start := View();
      events := [];
      for i := 0 to |cs|
        invariant View() == After(Feed, start, ChoicesPieces(cs[..i]))
        invariant events == Sent(Feed, start, ChoicesPieces(cs[..i]))
      {
        var more := Choice(cs[i]);
        events := events + more;
        assert Front(cs[..i + 1]) == cs[..i];
        Concat(Feed, start, ChoicesPieces(cs[..i]), ChoicePieces(cs[i]));
      }
      assert cs[..|cs|] == cs;
    }

    method Chunk(payload: Option<Chunk>) returns (events: seq<Event>)
      modifies this
      ensures View() == After(Feed, old(View()), Pieces(payload)) && events == Sent(Feed, old(View()), Pieces(payload))
    {
      events := [];
      if payload.None? {
        return;
      }
      var c := payload.value;
      ghost var start := View();
      ghost var first: seq<Piece> := if c.usage.Some? then [UsagePiece(c.usage.value)] else [];
      if c.usage.Some? {
        usage := c.usage.value;
        Snoc(Feed, start, [], UsagePiece(c.usage.value));
        assert [] + first == first;
      }
      events := Choices(c.choices);
      Concat(Feed, start, first, ChoicesPieces(c.choices));
    }

    method End() returns (events: seq<Event>)
      modifies this
      ensures events == Ending(old(View()))
    {
      events := CloseBlock();
      var stop := StopReasonFromFinish(finish);
      if sawTool {
        stop := ToolUse;
      }
      events := events + [MessageDelta(stop, usage), MessageStop];
    }
  }

  /** The whole relay: start, chunk for every payload, end. */
  method Relay(payloads: seq<Option<Chunk>>) returns (events: seq<Event>)
    ensures events == Conversation(payloads)
  {
    var s := new Stream();
    var sent: seq<Event> := [];
    for i := 0 to |payloads|
      invariant s.View() == After(Feed, FRESH, AllPieces(payloads[..i]))
      invariant sent == Sent(Feed, FRESH, AllPieces(payloads[..i]))
    {
      var more := s.Chunk(payloads[i]);
      sent := sent + more;
      assert Front(payloads[..i + 1]) == payloads[..i];
      Concat(Feed, FRESH, AllPieces(payloads[..i]), Pieces(payloads[i]));
    }
    assert payloads[..|payloads|] == payloads;
    var last := s.End();
    events := [MessageStart] + sent + last;
  }

  // ── The blocks a reply consists of ───────────────────────────────────────────

  /** One block, and the non-empty fragments sent inside it. */
  datatype Block = TextBlock(parts: seq<string>) | ToolBlock(index: int, id: Id, name: string, parts: seq<string>)

  function NonEmpty(s: string): seq<string> {
    if s == "" then [] else [s]
  }

  function WithPart(b: Block, s: string): Block {
    if s == "" then b else b.(parts := b.parts + [s])
  }

  /** Text joins a trailing text block; a fragment joins a trailing block of the same call. */
  function Extend(blocks: seq<Block>, p: Piece): seq<Block> {
    match p
    case TextPiece(s) =>
      if s == "" then blocks
      else if blocks != [] && Last(blocks).TextBlock? then Front(blocks) + [WithPart(Last(blocks), s)]
      else blocks + [TextBlock([s])]
    case ToolPiece(f) =>
      if blocks != [] && Last(blocks).ToolBlock? && Last(blocks).index == f.index
      then Front(blocks) + [WithPart(Last(blocks), f.args)]
      else blocks + [ToolBlock(f.index, IdOf(f.id), f.name, NonEmpty(f.args))]
    case _ => blocks
  }

  function Blocks(ps: seq<Piece>): seq<Block> {
    if ps == [] then [] else Extend(Blocks(Front(ps)), Last(ps))
  }

  // ── A strict client ──────────────────────────────────────────────────────────

  /** A content block as a client assembles it. */
  datatype Raw = RawText(text: string) | RawTool(id: Id, name: string, json: string)

  datatype Client = Client(started: bool, blocks: seq<Raw>, open: bool,
                           stop: Option<StopReason>, usage: Usage, over: bool)

  const WAITING := Client(false, [], false, None, Usage(0, 0), false)

  /** A client that accepts only the documented event order: blocks numbered 0, 1, 2, …, at most one
      open, deltas only of its kind and index, nothing after message_stop. None is a violation. */
  function Receive(c: Client, e: Event): Option<Client> {
    if c.over then None else
    match e
    case MessageStart => if c.started then None else Some(c.(started := true))
    case BlockStart(i, k) =>
      if !c.started || c.open || c.stop.Some? || i != |c.blocks| then None
      else Some(c.(open := true, blocks := c.blocks + [if k.TextKind? then RawText("") else RawTool(k.id, k.name, "")]))
    case TextDelta(i, s) =>
      if !c.open || i != |c.blocks| - 1 || c.blocks == [] || !Last(c.blocks).RawText? then None
      else Some(c.(blocks := Front(c.blocks) + [RawText(Last(c.blocks).text + s)]))
    case JsonDelta(i, s) =>
      if !c.open || i != |c.blocks| - 1 || c.blocks == [] || !Last(c.blocks).RawTool? then None
      else Some(c.(blocks := Front(c.blocks) + [Last(c.blocks).(json := Last(c.blocks).json + s)]))
    case BlockStop(i) => if !c.open || i != |c.blocks| - 1 then None else Some(c.(open := false))
    case MessageDelta(s, u) =>
      if !c.started || c.open || c.stop.Some? then None else Some(c.(stop := Some(s), usage := u))
    case MessageStop => if c.stop.None? then None else Some(c.(over := true))
  }

  function ReceiveAll(c: Client, events: seq<Event>): Option<Client> {
    if events == [] then Some(c)
    else
      match ReceiveAll(c, Front(events))
      case None => None
      case Some(d) => Receive(d, Last(events))
  }

  function RawOf(b: Block): Raw {
    match b
    case TextBlock(parts) => RawText(Joined(parts))
    case ToolBlock(_, id, name, parts) => RawTool(id, name, Joined(parts))
  }

  function RawsOf(bs: seq<Block>): (rs: seq<Raw>)
    ensures |rs| == |bs|
  {
    seq(|bs|, i requires 0 <= i < |bs| => RawOf(bs[i]))
  }

  predicate HasTool(ps: seq<Piece>) {
    exists i :: 0 <= i < |ps| && ps[i].ToolPiece?
  }

  function LastFinish(ps: seq<Piece>): string {
    if ps == [] then "" else if Last(ps).FinishPiece? then Last(ps).reason else LastFinish(Front(ps))
  }

  function LastUsage(ps: seq<Piece>): Usage {
    if ps == [] then Usage(0, 0) else if Last(ps).UsagePiece? then Last(ps).usage else LastUsage(Front(ps))
  }

  lemma {:induction false} ReceiveConcat(c: Client, a: seq<Event>, b: seq<Event>)
    requires ReceiveAll(c, a).Some?
    ensures ReceiveAll(c, a + b) == ReceiveAll(ReceiveAll(c, a).value, b)
    decreases |b|
  {
    if b == [] {
      assert a + b == a;
    } else {
      ReceiveConcat(c, a, Front(b));
      assert Front(a + b) == a + Front(b);
    }
  }

  /** What the translator, a client that got all its events, and the reference blocks agree on. */
  ghost predicate InStep(t: Translator, c: Client, bs: seq<Block>) {
    && c == Client(true, RawsOf(bs), bs != [], None, Usage(0, 0), false)
    && t.blockIndex == |bs| - 1
    && (bs == [] <==> t.open.Nothing?)
    && (bs != [] ==> (Last(bs).TextBlock? <==> t.open.OpenText?))
    && (bs != [] && Last(bs).ToolBlock? ==> t.toolIndex == Last(bs).index)
  }

  /** What the translator remembers besides its blocks. */
  ghost predicate Remembers(t: Translator, ps: seq<Piece>) {
    && (t.open.OpenTool? ==> t.sawTool)
    && t.sawTool == HasTool(ps) && t.finish == LastFinish(ps) && t.usage == LastUsage(ps)
  }

  lemma ReceiveOne(c: Client, e: Event)
    ensures ReceiveAll(c, [e]) == Receive(c, e)
  {
    assert Front([e]) == [];
    assert ReceiveAll(c, []) == Some(c);
  }

  lemma ReceiveTwo(c: Client, e: Event, f: Event)
    requires Receive(c, e).Some?
    ensures ReceiveAll(c, [e, f]) == Receive(Receive(c, e).value, f)
  {
    assert Front([e, f]) == [e];
    ReceiveOne(c, e);
  }

  lemma RawsAppend(bs: seq<Block>, b: Block)
    ensures RawsOf(bs + [b]) == RawsOf(bs) + [RawOf(b)]
  {
  }

  lemma RawsReplaceLast(bs: seq<Block>, b: Block)
    requires bs != []
    ensures RawsOf(Front(bs) + [b]) == Front(RawsOf(bs)) + [RawOf(b)]
  {
  }

  lemma JoinedSnoc(parts: seq<string>, s: string)
    ensures Joined(parts + [s]) == Joined(parts) + s
  {
    assert Front(parts + [s]) == parts;
  }

  lemma BlocksSnoc(ps: seq<Piece>, p: Piece)
    ensures Blocks(ps + [p]) == Extend(Blocks(ps), p)
    ensures HasTool(ps + [p]) == (HasTool(ps) || p.ToolPiece?)
    ensures LastFinish(ps + [p]) == if p.FinishPiece? then p.reason else LastFinish(ps)
    ensures LastUsage(ps + [p]) == if p.UsagePiece? then p.usage else LastUsage(ps)
  {
    assert Front(ps + [p]) == ps;
    if HasTool(ps) {
      var i :| 0 <= i < |ps| && ps[i].ToolPiece?;
      assert (ps + [p])[i].ToolPiece?;
    }
    if p.ToolPiece? { assert (ps + [p])[|ps|].ToolPiece?; }
  }

  lemma CloseInStep(t: Translator, c: Client, bs: seq<Block>)
    requires InStep(t, c, bs)
    ensures ReceiveAll(c, Closing(t)) == Some(c.(open := false))
  {
    if !t.open.Nothing? { ReceiveOne(c, BlockStop(t.blockIndex)); }
  }

  lemma OneFragment(s: string)
    ensures Joined([s]) == s
  {
    JoinedSnoc([], s);
    assert [] + [s] == [s];
  }

  /** A block opened after whatever was open, with its first delta if there is one. */
  lemma OpensBlock(c: Client, closing: seq<Event>, bs: seq<Block>, b: Block, start: Event, delta: seq<Event>)
    requires ReceiveAll(c, closing) == Some(Client(true, RawsOf(bs), false, None, Usage(0, 0), false))
    requires b.parts == [] || exists s :: b.parts == [s]
    requires start == BlockStart(|bs|, if b.TextBlock? then TextKind else ToolKind(b.id, b.name))
    requires delta == (if b.parts == [] then []
                       else [if b.TextBlock? then TextDelta(|bs|, b.parts[0]) else JsonDelta(|bs|, b.parts[0])])
    ensures ReceiveAll(c, closing + ([start] + delta))
        == Some(Client(true, RawsOf(bs + [b]), true, None, Usage(0, 0), false))
  {
    var d := ReceiveAll(c, closing).value;
    RawsAppend(bs, b);
    ReceiveConcat(c, closing, [start] + delta);
    if delta == [] {
      assert [start] + delta == [start];
      ReceiveOne(d, start);
    } else {
      OneFragment(b.parts[0]);
      assert [start] + delta == [start, delta[0]];
      assert Front(Receive(d, start).value.blocks) == RawsOf(bs);
      ReceiveTwo(d, start, delta[0]);
    }
  }

  lemma TextContinues(t: Translator, c: Client, bs: seq<Block>, text: string)
    requires InStep(t, c, bs) && text != "" && t.open.OpenText?
    ensures ReceiveAll(c, FeedText(t, text).1).Some?
    ensures InStep(t, ReceiveAll(c, FeedText(t, text).1).value, Extend(bs, TextPiece(text)))
  {
    JoinedSnoc(Last(bs).parts, text);
    RawsReplaceLast(bs, WithPart(Last(bs), text));
    ReceiveOne(c, TextDelta(t.blockIndex, text));
  }

  lemma TextOpens(t: Translator, c: Client, bs: seq<Block>, text: string)
    requires InStep(t, c, bs) && text != "" && !t.open.OpenText?
    ensures ReceiveAll(c, FeedText(t, text).1).Some?
    ensures InStep(FeedText(t, text).0, ReceiveAll(c, FeedText(t, text).1).value, Extend(bs, TextPiece(text)))
  {
    CloseInStep(t, c, bs);
    var start, delta := BlockStart(|bs|, TextKind), [TextDelta(|bs|, text)];
    OpensBlock(c, Closing(t), bs, TextBlock([text]), start, delta);
    assert [start] + delta == [start, TextDelta(|bs|, text)];
  }

  lemma ToolContinues(t: Translator, c: Client, bs: seq<Block>, f: Fragment)
    requires InStep(t, c, bs) && t.open.OpenTool? && t.toolIndex == f.index
    ensures ReceiveAll(c, FeedTool(t, f).1).Some?
    ensures InStep(t, ReceiveAll(c, FeedTool(t, f).1).value, Extend(bs, ToolPiece(f)))
  {
    if f.args == "" {
      assert Front(bs) + [Last(bs)] == bs;
      assert FeedTool(t, f).1 == [];
    } else {
      var delta := JsonDelta(t.blockIndex, f.args);
      assert FeedTool(t, f).1 == [delta];
      ReceiveOne(c, delta);
      JsonContinues(c, bs, f.args);
    }
  }

  lemma JsonContinues(c: Client, bs: seq<Block>, args: string)
    requires bs != [] && Last(bs).ToolBlock? && args != ""
    requires c.blocks == RawsOf(bs) && c.open && !c.over
    ensures Receive(c, JsonDelta(|bs| - 1, args)) == Some(c.(blocks := RawsOf(Front(bs) + [WithPart(Last(bs), args)])))
  {
    JoinedSnoc(Last(bs).parts, args);
    RawsReplaceLast(bs, WithPart(Last(bs), args));
  }

  lemma ToolOpens(t: Translator, c: Client, bs: seq<Block>, f: Fragment)
    requires InStep(t, c, bs) && !(t.open.OpenTool? && t.toolIndex == f.index)
    ensures ReceiveAll(c, FeedTool(t, f).1).Some?
    ensures InStep(FeedTool(t, f).0, ReceiveAll(c, FeedTool(t, f).1).value, Extend(bs, ToolPiece(f)))
  {
    CloseInStep(t, c, bs);
    var start, delta := BlockStart(|bs|, ToolKind(IdOf(f.id), f.name)),
        if f.args == "" then [] else [JsonDelta(|bs|, f.args)];
    OpensBlock(c, Closing(t), bs, ToolBlock(f.index, IdOf(f.id), f.name, NonEmpty(f.args)), start, delta);
    assert Closing(t) + [start] + delta == Closing(t) + ([start] + delta);
  }

  /** One piece moves the translator, the client and the reference blocks together. */
  lemma FeedInStep(t: Translator, c: Client, bs: seq<Block>, p: Piece)
    requires InStep(t, c, bs)
    ensures ReceiveAll(c, Feed(t, p).1).Some? && InStep(Feed(t, p).0, ReceiveAll(c, Feed(t, p).1).value, Extend(bs, p))
  {
    match p
    case TextPiece(s) =>
      if s != "" {
        if t.open.OpenText? { TextContinues(t, c, bs, s); } else { TextOpens(t, c, bs, s); }
      }
    case ToolPiece(f) =>
      if t.open.OpenTool? && t.toolIndex == f.index { ToolContinues(t, c, bs, f); } else { ToolOpens(t, c, bs, f); }
    case _ =>
  }

  lemma {:induction false} RunInStep(ps: seq<Piece>)
    ensures var c := ReceiveAll(WAITING.(started := true), Sent(Feed, FRESH, ps));
            c.Some? && InStep(After(Feed, FRESH, ps), c.value, Blocks(ps))
    decreases |ps|
  {
    if ps != [] {
      var rest, p := Front(ps), Last(ps);
      RunInStep(rest);
      var c := ReceiveAll(WAITING.(started := true), Sent(Feed, FRESH, rest)).value;
      FeedInStep(After(Feed, FRESH, rest), c, Blocks(rest), p);
      ReceiveConcat(WAITING.(started := true), Sent(Feed, FRESH, rest), Feed(After(Feed, FRESH, rest), p).1);
    }
  }

  lemma {:induction false} RunRemembers(ps: seq<Piece>)
    ensures Remembers(After(Feed, FRESH, ps), ps)
    decreases |ps|
  {
    if ps != [] {
      RunRemembers(Front(ps));
      assert Front(ps) + [Last(ps)] == ps;
      BlocksSnoc(Front(ps), Last(ps));
    }
  }

  function StopOf(ps: seq<Piece>): StopReason {
    if HasTool(ps) then ToolUse else StopReasonFromFinish(LastFinish(ps))
  }

  lemma EndInStep(t: Translator, c: Client, bs: seq<Block>, stop: StopReason)
    requires InStep(t, c, bs) && stop == (if t.sawTool then ToolUse else StopReasonFromFinish(t.finish))
    ensures ReceiveAll(c, Ending(t)) == Some(Client(true, RawsOf(bs), false, Some(stop), t.usage, true))
  {
    CloseInStep(t, c, bs);
    ReceiveTwo(c.(open := false), MessageDelta(stop, t.usage), MessageStop);
    ReceiveConcat(c, Closing(t), [MessageDelta(stop, t.usage), MessageStop]);
  }

  /** For every list of payloads, parseable or not, a strict client accepts the whole conversation and
      ends up with exactly the reference blocks, all closed, and with the stop reason and usage. */
  lemma EveryStreamIsWellFormed(payloads: seq<Option<Chunk>>)
    ensures var ps := AllPieces(payloads);
            ReceiveAll(WAITING, Conversation(payloads))
            == Some(Client(true, RawsOf(Blocks(ps)), false, Some(StopOf(ps)), LastUsage(ps), true))
  {
    var ps := AllPieces(payloads);
    RunInStep(ps);
    RunRemembers(ps);
    WholeConversation(After(Feed, FRESH, ps), Sent(Feed, FRESH, ps), Blocks(ps), StopOf(ps));
  }

  lemma WholeConversation(t: Translator, sent: seq<Event>, bs: seq<Block>, stop: StopReason)
    requires ReceiveAll(WAITING.(started := true), sent).Some?
    requires InStep(t, ReceiveAll(WAITING.(started := true), sent).value, bs)
    requires stop == (if t.sawTool then ToolUse else StopReasonFromFinish(t.finish))
    ensures ReceiveAll(WAITING, [MessageStart] + sent + Ending(t))
        == Some(Client(true, RawsOf(bs), false, Some(stop), t.usage, true))
  {
    ReceiveOne(WAITING, MessageStart);
    ReceiveConcat(WAITING, [MessageStart], sent);
    EndInStep(t, ReceiveAll(WAITING.(started := true), sent).value, bs, stop);
    ReceiveConcat(WAITING, [MessageStart] + sent, Ending(t));
  }

  // ── Order of the fragments ───────────────────────────────────────────────────

  datatype Part = Text(s: string) | Args(s: string)

  function PartsOf(p: Piece): seq<Part> {
    match p
    case TextPiece(s) => if s == "" then [] else [Text(s)]
    case ToolPiece(f) => if f.args == "" then [] else [Args(f.args)]
    case _ => []
  }

  function InputParts(ps: seq<Piece>): seq<Part> {
    FlatMap(PartsOf, ps)
  }

  function DeltaPart(e: Event): seq<Part> {
    match e
    case TextDelta(_, s) => [Text(s)]
    case JsonDelta(_, s) => [Args(s)]
    case _ => []
  }

  function OutputParts(events: seq<Event>): seq<Part> {
    FlatMap(DeltaPart, events)
  }

  lemma ClosingHasNoPart(t: Translator)
    ensures OutputParts(Closing(t)) == []
  {
    if !t.open.Nothing? { FlatMapOne(DeltaPart, BlockStop(t.blockIndex)); }
  }

  lemma OpeningPart(t: Translator, start: Event, delta: seq<Event>)
    requires start.BlockStart? && |delta| <= 1
    ensures OutputParts(Closing(t) + [start] + delta) == if delta == [] then [] else DeltaPart(delta[0])
  {
    ClosingHasNoPart(t);
    FlatMapSnoc(DeltaPart, Closing(t), start);
    if delta != [] {
      FlatMapSnoc(DeltaPart, Closing(t) + [start], delta[0]);
      assert delta == [delta[0]];
    } else {
      assert Closing(t) + [start] + delta == Closing(t) + [start];
    }
  }

  lemma TextKeepsParts(t: Translator, s: string)
    ensures OutputParts(FeedText(t, s).1) == PartsOf(TextPiece(s))
  {
    var i := t.blockIndex + 1;
    if s == "" {
    } else if t.open.OpenText? {
      FlatMapOne(DeltaPart, TextDelta(t.blockIndex, s));
    } else {
      OpeningPart(t, BlockStart(i, TextKind), [TextDelta(i, s)]);
      assert Closing(t) + [BlockStart(i, TextKind), TextDelta(i, s)]
          == Closing(t) + [BlockStart(i, TextKind)] + [TextDelta(i, s)];
    }
  }

  lemma FeedKeepsParts(t: Translator, p: Piece)
    ensures OutputParts(Feed(t, p).1) == PartsOf(p)
  {
    match p
    case TextPiece(s) => TextKeepsParts(t, s);
    case ToolPiece(f) => ToolKeepsParts(t, f);
    case _ =>
  }

  function ArgsDelta(i: int, args: string): seq<Event> {
    if args != "" then [JsonDelta(i, args)] else []
  }

  lemma ArgsPart(i: int, args: string)
    ensures OutputParts(ArgsDelta(i, args)) == if args == "" then [] else [Args(args)]
  {
    if args != "" { FlatMapOne(DeltaPart, JsonDelta(i, args)); }
  }

  lemma ToolKeepsParts(t: Translator, f: Fragment)
    ensures OutputParts(FeedTool(t, f).1) == PartsOf(ToolPiece(f))
  {
    var i := t.blockIndex + 1;
    if t.open.OpenTool? && t.toolIndex == f.index {
      assert FeedTool(t, f).1 == [] + ArgsDelta(t.blockIndex, f.args) == ArgsDelta(t.blockIndex, f.args);
      ArgsPart(t.blockIndex, f.args);
    } else {
      var start := BlockStart(i, ToolKind(IdOf(f.id), f.name));
      assert FeedTool(t, f).1 == Closing(t) + [start] + ArgsDelta(i, f.args);
      OpeningPart(t, start, ArgsDelta(i, f.args));
    }
  }

  lemma {:induction false} FragmentsInInputOrder(ps: seq<Piece>)
    ensures OutputParts(Sent(Feed, FRESH, ps)) == InputParts(ps)
    decreases |ps|
  {
    if ps != [] {
      var rest, p := Front(ps), Last(ps);
      FragmentsInInputOrder(rest);
      FlatMapConcat(DeltaPart, Sent(Feed, FRESH, rest), Feed(After(Feed, FRESH, rest), p).1);
      FeedKeepsParts(After(Feed, FRESH, rest), p);
    }
  }

  /** Nothing is lost, added or reordered: the deltas sent are the non-empty text and argument
      fragments received, in exactly the input order. */
  lemma ConversationInInputOrder(payloads: seq<Option<Chunk>>)
    ensures OutputParts(Conversation(payloads)) == InputParts(AllPieces(payloads))
  {
    var ps := AllPieces(payloads);
    FragmentsInInputOrder(ps);
    FramingHasNoPart(After(Feed, FRESH, ps), Sent(Feed, FRESH, ps));
  }

  lemma EndingHasNoPart(t: Translator)
    ensures OutputParts(Ending(t)) == []
  {
    var stop := if t.sawTool then ToolUse else StopReasonFromFinish(t.finish);
    var delta := MessageDelta(stop, t.usage);
    assert Ending(t) == Closing(t) + [delta] + [MessageStop];
    ClosingHasNoPart(t);
    FlatMapSnoc(DeltaPart, Closing(t), delta);
    FlatMapSnoc(DeltaPart, Closing(t) + [delta], MessageStop);
  }

  lemma FramingHasNoPart(t: Translator, sent: seq<Event>)
    ensures OutputParts([MessageStart] + sent + Ending(t)) == OutputParts(sent)
  {
    FlatMapConcat(DeltaPart, [MessageStart] + sent, Ending(t));
    FlatMapConcat(DeltaPart, [MessageStart], sent);
    FlatMapOne(DeltaPart, MessageStart);
    EndingHasNoPart(t);
  }

  // ── The stop reason, read off the payloads ───────────────────────────────────

  function FinishOf(ch: Choice): seq<string> {
    if ch.finish.Some? then [ch.finish.value] else []
  }

  function FinishesIn(payload: Option<Chunk>): seq<string> {
    if payload.None? then [] else FlatMap(FinishOf, payload.value.choices)
  }

  /** Every finish reason that came, in order. */
  function Finishes(payloads: seq<Option<Chunk>>): seq<string> {
    FlatMap(FinishesIn, payloads)
  }

  function CallsOf(ch: Choice): seq<Fragment> {
    ch.delta.toolCalls
  }

  function CallsIn(payload: Option<Chunk>): seq<Fragment> {
    if payload.None? then [] else FlatMap(CallsOf, payload.value.choices)
  }

  /** Every tool fragment that came, in order. */
  function Fragments(payloads: seq<Option<Chunk>>): seq<Fragment> {
    FlatMap(CallsIn, payloads)
  }

  function KeptFinish(p: Piece): seq<string> {
    if p.FinishPiece? then [p.reason] else []
  }

  function KeptCall(p: Piece): seq<Fragment> {
    if p.ToolPiece? then [p.call] else []
  }

  lemma {:induction false} KeptCallPieces(fs: seq<Fragment>)
    ensures FlatMap(KeptCall, CallPieces(fs)) == fs
    ensures FlatMap(KeptFinish, CallPieces(fs)) == []
    decreases |fs|
  {
    if fs != [] {
      var front, last := CallPieces(Front(fs)), ToolPiece(Last(fs));
      KeptCallPieces(Front(fs));
      assert CallPieces(fs) == front + [last];
      FlatMapSnoc(KeptCall, front, last);
      FlatMapSnoc(KeptFinish, front, last);
      assert FlatMap(KeptFinish, front) + [] == [];
    }
  }

  lemma KeptOfChoice(ch: Choice)
    ensures FlatMap(KeptCall, ChoicePieces(ch)) == CallsOf(ch)
    ensures FlatMap(KeptFinish, ChoicePieces(ch)) == FinishOf(ch)
  {
    var text, calls := TextPiece(ch.delta.content), CallPieces(ch.delta.toolCalls);
    KeptCallPieces(ch.delta.toolCalls);
    FlatMapConcat(KeptCall, [text], calls);
    FlatMapConcat(KeptFinish, [text], calls);
    FlatMapOne(KeptCall, text);
    FlatMapOne(KeptFinish, text);
    if ch.finish.Some? {
      FlatMapSnoc(KeptCall, [text] + calls, FinishPiece(ch.finish.value));
      FlatMapSnoc(KeptFinish, [text] + calls, FinishPiece(ch.finish.value));
    } else {
      assert [text] + calls + [] == [text] + calls;
    }
  }

  lemma KeptOfChoices(cs: seq<Choice>)
    ensures FlatMap(KeptCall, ChoicesPieces(cs)) == FlatMap(CallsOf, cs)
    ensures FlatMap(KeptFinish, ChoicesPieces(cs)) == FlatMap(FinishOf, cs)
  {
    forall ch ensures FlatMap(KeptCall, ChoicePieces(ch)) == CallsOf(ch) { KeptOfChoice(ch); }
    forall ch ensures FlatMap(KeptFinish, ChoicePieces(ch)) == FinishOf(ch) { KeptOfChoice(ch); }
    FlatMapCompose(ChoicePieces, KeptCall, CallsOf, cs);
    FlatMapCompose(ChoicePieces, KeptFinish, FinishOf, cs);
  }

  lemma KeptOfPayload(payload: Option<Chunk>)
    ensures FlatMap(KeptCall, Pieces(payload)) == CallsIn(payload)
    ensures FlatMap(KeptFinish, Pieces(payload)) == FinishesIn(payload)
  {
    if payload.Some? {
      var c := payload.value;
      KeptOfChoices(c.choices);
      if c.usage.Some? {
        var u := UsagePiece(c.usage.value);
        FlatMapConcat(KeptCall, [u], ChoicesPieces(c.choices));
        FlatMapConcat(KeptFinish, [u], ChoicesPieces(c.choices));
        FlatMapOne(KeptCall, u);
        FlatMapOne(KeptFinish, u);
      } else {
        assert [] + ChoicesPieces(c.choices) == ChoicesPieces(c.choices);
      }
    }
  }

  lemma KeptOfStream(payloads: seq<Option<Chunk>>)
    ensures FlatMap(KeptCall, AllPieces(payloads)) == Fragments(payloads)
    ensures FlatMap(KeptFinish, AllPieces(payloads)) == Finishes(payloads)
  {
    forall p ensures FlatMap(KeptCall, Pieces(p)) == CallsIn(p) { KeptOfPayload(p); }
    forall p ensures FlatMap(KeptFinish, Pieces(p)) == FinishesIn(p) { KeptOfPayload(p); }
    FlatMapCompose(Pieces, KeptCall, CallsIn, payloads);
    FlatMapCompose(Pieces, KeptFinish, FinishesIn, payloads);
  }

  function LastOrEmpty(reasons: seq<string>): string {
    if reasons == [] then "" else Last(reasons)
  }

  lemma {:induction false} LastFinishIsLast(ps: seq<Piece>)
    ensures LastFinish(ps) == LastOrEmpty(FlatMap(KeptFinish, ps))
    ensures HasTool(ps) <==> FlatMap(KeptCall, ps) != []
    decreases |ps|
  {
    if ps != [] {
      LastFinishIsLast(Front(ps));
      assert Front(ps) + [Last(ps)] == ps;
      BlocksSnoc(Front(ps), Last(ps));
      FlatMapSnoc(KeptFinish, Front(ps), Last(ps));
      FlatMapSnoc(KeptCall, Front(ps), Last(ps));
    }
  }

  /** Tools win; else a reply that was cut short says so; else the turn is over. */
  predicate StopsFor(stop: StopReason, tools: bool, finish: string) {
    && (stop == ToolUse <==> tools || finish == "tool_calls" || finish == "function_call")
    && (stop == MaxTokens <==> !tools && finish == "length")
    && (stop == EndTurn <==> !tools && finish != "tool_calls" && finish != "function_call" && finish != "length")
  }

  /** For every list of payloads: the stop reason a client receives follows from whether any tool fragment
      came and from the last finish reason that came. */
  lemma StopFollowsFromPayloads(payloads: seq<Option<Chunk>>)
    ensures var c := ReceiveAll(WAITING, Conversation(payloads));
            && c.Some? && c.value.stop.Some?
            && StopsFor(c.value.stop.value, Fragments(payloads) != [], LastOrEmpty(Finishes(payloads)))
  {
    EveryStreamIsWellFormed(payloads);
    KeptOfStream(payloads);
    LastFinishIsLast(AllPieces(payloads));
  }
}
