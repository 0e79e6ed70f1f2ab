/**
 Ollama's newline-delimited JSON as a stream of OpenAI chunks, and what comes out when that
 stream is fed to the Anthropic translator.
*/
module OllamaStream {
  import opened Prelude
  import opened Wire
  import opened Transducer
  import Anthropic = AnthropicStream

  /** A call's arguments on an Ollama line: already a string, absent, or a value (given as its encoding). */
  datatype Arguments = Encoded(text: string) | Absent | Value(json: string)

  datatype OllamaCall = OllamaCall(id: string, name: string, arguments: Arguments)

  datatype OllamaObject = OllamaObject(
    done: bool, doneReason: string, content: string, calls: seq<OllamaCall>, model: string, prompt: int, eval: int)

  /** One scanned line. */
  datatype Line = Blank | Unparseable | Object(obj: OllamaObject)

  // ── Translating one object ───────────────────────────────────────────────────

  /** openAIToolCalls: arguments become a JSON string, a missing id is minted. */
  function CallFragment(c: OllamaCall, index: int, mint: int -> string): Fragment {
    Fragment(index, if c.id == "" then mint(index) else c.id, c.name,
             match c.arguments case Encoded(s) => s case Absent => "{}" case Value(j) => j)
  }

  /** The calls of one object, numbered from `from`. */
  function CallFragments(calls: seq<OllamaCall>, from: int, mint: int -> string): (fs: seq<Fragment>)
    ensures |fs| == |calls|
  {
    seq(|calls|, i requires 0 <= i < |calls| => CallFragment(calls[i], from + i, mint))
  }

  function FinishReason(o: OllamaObject): string {
    if o.doneReason == FINISH_LENGTH then FINISH_LENGTH else FINISH_STOP
  }

  /** formatStreamChunk. The content of a terminal object that is not the first is dropped. */
  function Format(o: OllamaObject, isFirst: bool, from: int, mint: int -> string): Chunk {
    var calls := CallFragments(o.calls, from, mint);
    var delta := if isFirst then Delta("assistant", o.content, calls)
                 else if o.done then Delta("", "", calls)
                 else Delta("", o.content, calls);
    Chunk(o.model, [Choice(delta, if o.done then Some(FinishReason(o)) else None)],
          if o.done then Some(Usage(o.prompt, o.eval)) else None)
  }

  datatype Position = Position(isFirst: bool, done: bool, toolCalls: nat)

  const START := Position(true, false, 0)

  /** The chunk Recv returns for an object: renumbered, and finished by "tool_calls" if any were sent. */
  function Emitted(o: OllamaObject, at: Position, mint: int -> string): Chunk {
    var c := Format(o, at.isFirst, at.toolCalls, mint);
    if o.done && at.toolCalls + |o.calls| > 0
    then c.(choices := [c.choices[0].(finish := Some(FINISH_TOOL_CALLS))]) else c
  }

  function Next(o: OllamaObject, at: Position): Position {
    Position(false, o.done, at.toolCalls + |o.calls|)
  }

  /** Everything Recv will still return. */
  function Drained(lines: seq<Line>, at: Position, mint: int -> string): seq<Chunk> {
    if at.done || lines == [] then []
    else if !lines[0].Object? then Drained(lines[1..], at, mint)
    else [Emitted(lines[0].obj, at, mint)] + Drained(lines[1..], Next(lines[0].obj, at), mint)
  }

  class Stream {
    const lines: seq<Line>
    const mint: int -> string
    var pos: nat
    var isFirst: bool
    var done: bool
    var toolCalls: nat

    predicate Valid()
      reads this
    {
      pos <= |lines|
    }

    function Remaining(): seq<Chunk>
      requires Valid()
      reads this
    {
      Drained(lines[pos..], Position(isFirst, done, toolCalls), mint)
    }

    constructor (lines: seq<Line>, mint: int -> string)
      ensures Valid() && Remaining() == Drained(lines, START, mint)
      ensures this.lines == lines && this.mint == mint
    {
      this.lines, this.mint := lines, mint;
      pos, isFirst, done, toolCalls := 0, true, false, 0;
    }

    /** None is io.EOF. */
    method Recv() returns (chunk: Option<Chunk>)
      requires Valid()
      modifies this
      ensures Valid()
      ensures old(Remaining()) == if chunk.Some? then [chunk.value] + Remaining() else []
      ensures chunk.None? ==> Remaining() == []
    {
      if done {
        return None;
      }
      while pos < |lines|
        invariant Valid() && !done && isFirst == old(isFirst) && toolCalls == old(toolCalls)
        invariant Remaining() == old(Remaining())
        decreases |lines| - pos
      {
        var line := lines[pos];
        ghost var rest := lines[pos..];
        assert rest[0] == line && rest[1..] == lines[pos + 1..];
        pos := pos + 1;
        if !line.Object? {
          continue;
        }
        var o := line.obj;
        var c := Format(o, isFirst, 0, mint);
        var calls := [];
        ghost var first, here := toolCalls, pos;
        for i := 0 to |o.calls|
          invariant toolCalls == first + i && pos == here && !done && isFirst == old(isFirst)
          invariant |calls| == i && calls == CallFragments(o.calls, first, mint)[..i]
        {
          calls := calls + [CallFragment(o.calls[i], toolCalls, mint)];
          toolCalls := toolCalls + 1;
        }
        assert calls == CallFragments(o.calls, first, mint);
        c := c.(choices := [c.choices[0].(delta := c.choices[0].delta.(toolCalls := calls))]);
        if c.choices[0].finish.Some? && toolCalls > 0 {
          c := c.(choices := [c.choices[0].(finish := Some(FINISH_TOOL_CALLS))]);
        }
        isFirst := false;
        if o.done {
          done := true;
        }
        ghost var at := Position(old(isFirst), false, first);
        assert c == Emitted(o, at, mint);
        assert Drained(rest, at, mint) == [c] + Drained(rest[1..], Next(o, at), mint);
        return Some(c);
      }
      return None;
    }
  }

  /** Reading a stream to its end. */
  method Drain(lines: seq<Line>, mint: int -> string) returns (chunks: seq<Chunk>)
    ensures chunks == Drained(lines, START, mint)
  {
    var s := new Stream(lines, mint);
    chunks := [];
    while true
      invariant s.Valid() && chunks + s.Remaining() == Drained(lines, START, mint)
      decreases |s.Remaining()|
    {
      ghost var before := s.Remaining();
      var c := s.Recv();
      if c.None? {
        break;
      }
      assert chunks + before == (chunks + [c.value]) + before[1..];
      chunks := chunks + [c.value];
    }
  }

  // ── What every drained stream looks like ─────────────────────────────────────

  /** The objects that are relayed: every parseable line up to and including the first done one. */
  function Relayed(lines: seq<Line>): seq<OllamaObject> {
    if lines == [] then []
    else if !lines[0].Object? then Relayed(lines[1..])
    else [lines[0].obj] + (if lines[0].obj.done then [] else Relayed(lines[1..]))
  }

  /** How many calls the first k objects carry. */
  function CallsBefore(objs: seq<OllamaObject>, k: nat): nat
    requires k <= |objs|
  {
    if k == 0 then 0 else CallsBefore(objs, k - 1) + |objs[k - 1].calls|
  }

  lemma {:induction false} DoneIsLast(lines: seq<Line>, i: nat)
    requires i < |Relayed(lines)| && Relayed(lines)[i].done
    ensures i == |Relayed(lines)| - 1
    decreases |lines|
  {
    if !lines[0].Object? { DoneIsLast(lines[1..], i); }
    else if i > 0 { DoneIsLast(lines[1..], i - 1); }
  }

  lemma {:induction false} CallsBeforeShift(objs: seq<OllamaObject>, k: nat)
    requires 0 < k <= |objs|
    ensures CallsBefore(objs, k) == |objs[0].calls| + CallsBefore(objs[1..], k - 1)
    decreases k
  {
    if k > 1 { CallsBeforeShift(objs, k - 1); }
  }

  lemma {:induction false} OneChunkPerObject(lines: seq<Line>, at: Position, mint: int -> string)
    requires !at.done
    ensures |Drained(lines, at, mint)| == |Relayed(lines)|
    decreases |lines|
  {
    if lines != [] {
      if !lines[0].Object? { OneChunkPerObject(lines[1..], at, mint); }
      else if !lines[0].obj.done { OneChunkPerObject(lines[1..], Next(lines[0].obj, at), mint); }
    }
  }

  /** Fragment number `k` of a stream carries this call whole: its name, its id (or a minted one) and its
      arguments as JSON text. */
  predicate Carries(f: Fragment, c: OllamaCall, k: int, mint: int -> string) {
    && f.index == k && f.name == c.name
    && f.id == (if c.id == "" then mint(k) else c.id)
    && match c.arguments
       case Encoded(text) => f.args == text
       case Absent => f.args == "{}"
       case Value(json) => f.args == json
  }

  /** What a client may rely on in the chunk for object `o`, `sent` calls having gone before. */
  ghost predicate WellFormed(c: Chunk, o: OllamaObject, isFirst: bool, sent: nat, mint: int -> string) {
    && c.model == o.model && |c.choices| == 1
    && c.choices[0].delta.role == (if isFirst then "assistant" else "")
    && c.choices[0].finish == (if !o.done then None
                               else if sent + |o.calls| > 0 then Some(FINISH_TOOL_CALLS)
                               else if o.doneReason == FINISH_LENGTH then Some(FINISH_LENGTH) else Some(FINISH_STOP))
    && c.usage == (if o.done then Some(Usage(o.prompt, o.eval)) else None)
    && c.choices[0].delta.content == (if isFirst || !o.done then o.content else "")
    && |c.choices[0].delta.toolCalls| == |o.calls|
    && (forall k :: 0 <= k < |o.calls| ==> Carries(c.choices[0].delta.toolCalls[k], o.calls[k], sent + k, mint))
  }

  lemma EmittedShape(o: OllamaObject, at: Position, mint: int -> string)
    ensures WellFormed(Emitted(o, at, mint), o, at.isFirst, at.toolCalls, mint)
  {
  }

  lemma {:induction false} DrainedShape(lines: seq<Line>, at: Position, mint: int -> string, i: nat)
    requires !at.done && i < |Relayed(lines)|
    ensures i < |Drained(lines, at, mint)|
    ensures WellFormed(Drained(lines, at, mint)[i], Relayed(lines)[i], at.isFirst && i == 0,
                       at.toolCalls + CallsBefore(Relayed(lines), i), mint)
    decreases |lines|
  {
    OneChunkPerObject(lines, at, mint);
    if !lines[0].Object? {
      DrainedShape(lines[1..], at, mint, i);
    } else if i == 0 {
      EmittedShape(lines[0].obj, at, mint);
    } else {
      var next := Next(lines[0].obj, at);
      DrainedShape(lines[1..], next, mint, i - 1);
      CallsBeforeShift(Relayed(lines), i);
      assert Relayed(lines)[1..] == Relayed(lines[1..]);
      assert Drained(lines, at, mint)[i] == Drained(lines[1..], next, mint)[i - 1];
    }
  }

  /** For every list of lines, parseable or not: one well-formed chunk per relayed object, so the role
      is on the first only and each call is numbered by the calls sent before it. */
  lemma EveryDrainIsWellFormed(lines: seq<Line>, mint: int -> string, i: nat)
    requires i < |Relayed(lines)|
    ensures |Drained(lines, START, mint)| == |Relayed(lines)|
    ensures WellFormed(Drained(lines, START, mint)[i], Relayed(lines)[i], i == 0, CallsBefore(Relayed(lines), i), mint)
  {
    var at := START;
    DrainedFromStart(lines, at, mint, i);
  }

  lemma DrainedFromStart(lines: seq<Line>, at: Position, mint: int -> string, i: nat)
    requires at.isFirst && !at.done && at.toolCalls == 0 && i < |Relayed(lines)|
    ensures |Drained(lines, at, mint)| == |Relayed(lines)|
    ensures WellFormed(Drained(lines, at, mint)[i], Relayed(lines)[i], i == 0, CallsBefore(Relayed(lines), i), mint)
  {
    OneChunkPerObject(lines, at, mint);
    DrainedShape(lines, at, mint, i);
  }

  /** Finish and usage come together, on a done chunk, which is the last; its finish reason is "tool_calls"
      exactly if the whole stream sent any call. */
  lemma FinishIsLast(lines: seq<Line>, mint: int -> string, i: nat)
    requires i < |Relayed(lines)| == |Drained(lines, START, mint)|
    ensures var c := Drained(lines, START, mint)[i];
            && |c.choices| == 1
            && (c.choices[0].finish.Some? <==> Relayed(lines)[i].done)
            && (c.usage.Some? <==> Relayed(lines)[i].done)
            && (Relayed(lines)[i].done ==>
                  && i == |Relayed(lines)| - 1
                  && (c.choices[0].finish == Some(FINISH_TOOL_CALLS)
                      <==> CallsBefore(Relayed(lines), |Relayed(lines)|) > 0))
  {
    EveryDrainIsWellFormed(lines, mint, i);
    if Relayed(lines)[i].done { DoneIsLast(lines, i); }
    assert CallsBefore(Relayed(lines), i + 1) == CallsBefore(Relayed(lines), i) + |Relayed(lines)[i].calls|;
  }

  // ── Text conservation ────────────────────────────────────────────────────────

  function ContentOf(objs: seq<OllamaObject>): string {
    if objs == [] then "" else ContentOf(Front(objs)) + Last(objs).content
  }

  function TextOf(chunks: seq<Chunk>): string {
    if chunks == [] then ""
    else TextOf(Front(chunks)) + (if Last(chunks).choices == [] then "" else Last(chunks).choices[0].delta.content)
  }

  lemma {:induction false} TextUpTo(lines: seq<Line>, mint: int -> string, k: nat)
    requires k <= |Relayed(lines)| == |Drained(lines, START, mint)|
    requires forall i :: 0 < i < k ==> !Relayed(lines)[i].done
    ensures TextOf(Drained(lines, START, mint)[..k]) == ContentOf(Relayed(lines)[..k])
    decreases k
  {
    var objs, chunks := Relayed(lines), Drained(lines, START, mint);
    if k > 0 {
      TextUpTo(lines, mint, k - 1);
      DrainedShape(lines, START, mint, k - 1);
      assert Front(chunks[..k]) == chunks[..k - 1] && Front(objs[..k]) == objs[..k - 1];
    }
  }

  /** All relayed text reaches the client, except the content of a terminal object that is not the
      first: the text arrives complete exactly if there is no such object or its content is empty. */
  lemma TextIsKeptExactlyWhen(lines: seq<Line>, mint: int -> string)
    ensures var objs := Relayed(lines);
            TextOf(Drained(lines, START, mint)) == ContentOf(objs)
            <==> |objs| <= 1 || !Last(objs).done || Last(objs).content == ""
  {
    var objs, chunks := Relayed(lines), Drained(lines, START, mint);
    OneChunkPerObject(lines, START, mint);
    var n := |objs|;
    if n > 0 {
      forall i | 0 < i < n - 1 ensures !objs[i].done { if objs[i].done { DoneIsLast(lines, i); } }
      TextUpTo(lines, mint, n - 1);
      DrainedShape(lines, START, mint, n - 1);
      assert Front(chunks) == chunks[..n - 1] && Front(objs) == objs[..n - 1];
      var before, last := ContentOf(Front(objs)), chunks[n - 1].choices[0].delta.content;
      assert TextOf(chunks) == before + last;
      assert |before + last| == |before| + |last|;
      assert |before + Last(objs).content| == |before| + |Last(objs).content|;
    }
  }

  // ── Fed into the Anthropic translator ────────────────────────────────────────

  function AsPayloads(chunks: seq<Chunk>): seq<Option<Chunk>> {
    seq(|chunks|, i requires 0 <= i < |chunks| => Some(chunks[i]))
  }

  function KeptTool(b: Anthropic.Block): seq<Anthropic.Block> {
    if b.ToolBlock? then [b] else []
  }

  /** The block a call becomes when it is sent whole: one delta with all its arguments, none if empty. */
  function WholeCall(f: Fragment): Anthropic.Block {
    Anthropic.ToolBlock(f.index, Anthropic.IdOf(f.id), f.name, Anthropic.NonEmpty(f.args))
  }

  function WholeCalls(fs: seq<Fragment>): (bs: seq<Anthropic.Block>)
    ensures |bs| == |fs|
  {
    seq(|fs|, i requires 0 <= i < |fs| => WholeCall(fs[i]))
  }

  predicate Numbered(fs: seq<Fragment>) {
    forall k :: 0 <= k < |fs| ==> fs[k].index == k
  }

  lemma LastKeptTool(bs: seq<Anthropic.Block>)
    requires bs != [] && Last(bs).ToolBlock?
    ensures FlatMap(KeptTool, bs) != [] && Last(FlatMap(KeptTool, bs)) == Last(bs)
  {
  }

  lemma {:induction false} NumberedCallsGetOneBlockEach(ps: seq<Anthropic.Piece>)
    requires Numbered(FlatMap(Anthropic.KeptCall, ps))
    ensures FlatMap(KeptTool, Anthropic.Blocks(ps)) == WholeCalls(FlatMap(Anthropic.KeptCall, ps))
    decreases |ps|
  {
    if ps != [] {
      var rest, p := Front(ps), Last(ps);
      var bs, calls := Anthropic.Blocks(rest), FlatMap(Anthropic.KeptCall, rest);
      assert Numbered(calls) by {
        forall k | 0 <= k < |calls| ensures calls[k].index == k {
          assert FlatMap(Anthropic.KeptCall, ps)[k] == calls[k];
        }
      }
      if p.ToolPiece? { assert FlatMap(Anthropic.KeptCall, ps)[|calls|] == p.call; }
      NumberedCallsGetOneBlockEach(rest);
      OnePieceMore(bs, calls, p);
    }
  }

  lemma OnePieceMore(bs: seq<Anthropic.Block>, calls: seq<Fragment>, p: Anthropic.Piece)
    requires Numbered(calls) && FlatMap(KeptTool, bs) == WholeCalls(calls)
    requires p.ToolPiece? ==> p.call.index == |calls|
    ensures FlatMap(KeptTool, Anthropic.Extend(bs, p)) == WholeCalls(calls + Anthropic.KeptCall(p))
  {
    match p
    case ToolPiece(f) => OneCallMore(bs, calls, f);
    case TextPiece(s) =>
      assert calls + [] == calls;
      if s != "" { TextAddsNoTool(bs, s); }
    case _ =>
      assert calls + [] == calls;
  }

  lemma OneCallMore(bs: seq<Anthropic.Block>, calls: seq<Fragment>, f: Fragment)
    requires Numbered(calls) && FlatMap(KeptTool, bs) == WholeCalls(calls) && f.index == |calls|
    ensures FlatMap(KeptTool, Anthropic.Extend(bs, Anthropic.ToolPiece(f))) == WholeCalls(calls + [f])
  {
    if bs != [] && Last(bs).ToolBlock? {
      LastKeptTool(bs);
      assert Last(WholeCalls(calls)) == WholeCall(Last(calls));
    }
    FlatMapSnoc(KeptTool, bs, WholeCall(f));
    assert WholeCalls(calls + [f]) == WholeCalls(calls) + [WholeCall(f)];
  }

  lemma TextAddsNoTool(bs: seq<Anthropic.Block>, s: string)
    requires s != ""
    ensures FlatMap(KeptTool, Anthropic.Extend(bs, Anthropic.TextPiece(s))) == FlatMap(KeptTool, bs)
  {
    if bs != [] && Last(bs).TextBlock? {
      FlatMapSnoc(KeptTool, Front(bs), Last(bs));
      FlatMapSnoc(KeptTool, Front(bs), Anthropic.WithPart(Last(bs), s));
      assert Front(bs) + [Last(bs)] == bs;
    } else {
      FlatMapSnoc(KeptTool, bs, Anthropic.TextBlock([s]));
    }
  }

  /** The calls of a stream, in order. */
  function SentCalls(chunks: seq<Chunk>): seq<Fragment> {
    if chunks == [] then []
    else SentCalls(Front(chunks))
         + (if |Last(chunks).choices| == 1 then Last(chunks).choices[0].delta.toolCalls else [])
  }

  /** A one-choice chunk holds one list of calls and at most one finish reason. */
  lemma {:induction false} SentIsFragments(chunks: seq<Chunk>)
    requires forall i :: 0 <= i < |chunks| ==> |chunks[i].choices| == 1
    ensures Anthropic.Fragments(AsPayloads(chunks)) == SentCalls(chunks)
    ensures Anthropic.Finishes(AsPayloads(chunks)) == FlatMap(FinishSent, chunks)
    decreases |chunks|
  {
    if chunks != [] {
      var front, last := Front(chunks), Last(chunks);
      SentIsFragments(front);
      assert AsPayloads(chunks) == AsPayloads(front) + [Some(last)];
      assert chunks == front + [last] && last.choices == [last.choices[0]];
      FlatMapSnoc(Anthropic.CallsIn, AsPayloads(front), Some(last));
      FlatMapSnoc(Anthropic.FinishesIn, AsPayloads(front), Some(last));
      FlatMapSnoc(FinishSent, front, last);
      FlatMapOne(Anthropic.CallsOf, last.choices[0]);
      FlatMapOne(Anthropic.FinishOf, last.choices[0]);
    }
  }

  function FinishSent(c: Chunk): seq<string> {
    if |c.choices| == 1 && c.choices[0].finish.Some? then [c.choices[0].finish.value] else []
  }

  /** Every call that Ollama's objects carry, in order. */
  function CallsOf(objs: seq<OllamaObject>): seq<OllamaCall> {
    if objs == [] then [] else CallsOf(Front(objs)) + Last(objs).calls
  }

  predicate AllCarried(fs: seq<Fragment>, calls: seq<OllamaCall>, from: int, mint: int -> string) {
    |fs| == |calls| && forall k :: 0 <= k < |fs| ==> Carries(fs[k], calls[k], from + k, mint)
  }

  lemma CarriedConcat(f: seq<Fragment>, g: seq<Fragment>, c: seq<OllamaCall>, d: seq<OllamaCall>, mint: int -> string)
    requires AllCarried(f, c, 0, mint) && AllCarried(g, d, |c|, mint)
    ensures AllCarried(f + g, c + d, 0, mint)
  {
    forall k | 0 <= k < |f + g| ensures Carries((f + g)[k], (c + d)[k], k, mint) {
      if k >= |f| { assert Carries(g[k - |f|], d[k - |f|], |c| + (k - |f|), mint); }
    }
  }

  /** The calls a stream sends are Ollama's calls, each whole, numbered 0, 1, 2, ... across all lines. */
  lemma {:induction false} SentCallsAreOllamas(lines: seq<Line>, mint: int -> string, k: nat)
    requires k <= |Relayed(lines)| == |Drained(lines, START, mint)|
    ensures |CallsOf(Relayed(lines)[..k])| == CallsBefore(Relayed(lines), k)
    ensures AllCarried(SentCalls(Drained(lines, START, mint)[..k]), CallsOf(Relayed(lines)[..k]), 0, mint)
    decreases k
  {
    if k > 0 {
      SentCallsAreOllamas(lines, mint, k - 1);
      EveryDrainIsWellFormed(lines, mint, k - 1);
      SentOneMore(Drained(lines, START, mint), Relayed(lines), k - 1, mint);
    }
  }

  lemma SentOneMore(chunks: seq<Chunk>, objs: seq<OllamaObject>, k: nat, mint: int -> string)
    requires k < |chunks| == |objs| && WellFormed(chunks[k], objs[k], k == 0, CallsBefore(objs, k), mint)
    requires |CallsOf(objs[..k])| == CallsBefore(objs, k)
    requires AllCarried(SentCalls(chunks[..k]), CallsOf(objs[..k]), 0, mint)
    ensures |CallsOf(objs[..k + 1])| == CallsBefore(objs, k + 1)
    ensures AllCarried(SentCalls(chunks[..k + 1]), CallsOf(objs[..k + 1]), 0, mint)
  {
    var sent := chunks[k].choices[0].delta.toolCalls;
    assert Front(chunks[..k + 1]) == chunks[..k] && Front(objs[..k + 1]) == objs[..k];
    var before, calls := SentCalls(chunks[..k]), CallsOf(objs[..k]);
    assert SentCalls(chunks[..k + 1]) == before + sent;
    assert CallsOf(objs[..k + 1]) == calls + objs[k].calls;
    CarriedConcat(before, sent, calls, objs[k].calls, mint);
  }

  /** Block number `k` among the tool blocks is this call: one delta with all its arguments, or none when
      they are empty. */
  predicate IsBlockOf(b: Anthropic.Block, c: OllamaCall, k: int, mint: int -> string) {
    && b.ToolBlock? && b.index == k && b.name == c.name
    && (c.id != "" ==> b.id == Anthropic.Issued(c.id))
    && (c.id == "" && mint(k) != "" ==> b.id == Anthropic.Issued(mint(k)))
    && |b.parts| <= 1
    && match c.arguments
       case Encoded(text) => Joined(b.parts) == text
       case Absent => Joined(b.parts) == "{}"
       case Value(json) => Joined(b.parts) == json
  }

  lemma CarriedBlock(f: Fragment, c: OllamaCall, k: int, mint: int -> string)
    requires Carries(f, c, k, mint)
    ensures IsBlockOf(WholeCall(f), c, k, mint)
  {
    if f.args != "" { Anthropic.OneFragment(f.args); }
  }

  /** For every list of lines: fed into the Anthropic translator, the tool_use blocks are exactly the
      calls on Ollama's lines, in order, one block per call, each with the call's name and id and its
      whole arguments in at most one delta. */
  lemma EachCallIsOneWholeBlock(lines: seq<Line>, mint: int -> string)
    ensures var calls := CallsOf(Relayed(lines));
            var payloads := AsPayloads(Drained(lines, START, mint));
            var blocks := FlatMap(KeptTool, Anthropic.Blocks(Anthropic.AllPieces(payloads)));
            && |blocks| == |calls|
            && forall k :: 0 <= k < |calls| ==> IsBlockOf(blocks[k], calls[k], k, mint)
  {
    var objs, chunks := Relayed(lines), Drained(lines, START, mint);
    OneChunkPerObject(lines, START, mint);
    forall i | 0 <= i < |chunks| ensures |chunks[i].choices| == 1 { EveryDrainIsWellFormed(lines, mint, i); }
    SentCallsAreOllamas(lines, mint, |chunks|);
    assert chunks[..|chunks|] == chunks && objs[..|objs|] == objs;
    var sent := SentCalls(chunks);
    SentIsFragments(chunks);
    Anthropic.KeptOfStream(AsPayloads(chunks));
    NumberedCallsGetOneBlockEach(Anthropic.AllPieces(AsPayloads(chunks)));
    forall k | 0 <= k < |sent| ensures IsBlockOf(WholeCalls(sent)[k], CallsOf(objs)[k], k, mint) {
      CarriedBlock(sent[k], CallsOf(objs)[k], k, mint);
    }
  }

  lemma {:induction false} NoneFinishes(chunks: seq<Chunk>)
    requires forall c <- chunks :: FinishSent(c) == []
    ensures FlatMap(FinishSent, chunks) == []
  {
    if chunks != [] {
      NoneFinishes(Front(chunks));
      assert chunks == Front(chunks) + [Last(chunks)];
      FlatMapSnoc(FinishSent, Front(chunks), Last(chunks));
    }
  }

  lemma EarlierIsUnfinished(lines: seq<Line>, mint: int -> string, i: nat)
    requires i + 1 < |Relayed(lines)|
    ensures |Drained(lines, START, mint)| == |Relayed(lines)|
    ensures FinishSent(Drained(lines, START, mint)[i]) == []
  {
    OneChunkPerObject(lines, START, mint);
    if Relayed(lines)[i].done { DoneIsLast(lines, i); }
    EveryDrainIsWellFormed(lines, mint, i);
  }

  lemma LastFinish(lines: seq<Line>, mint: int -> string)
    requires Relayed(lines) != []
    ensures var objs, chunks := Relayed(lines), Drained(lines, START, mint);
            && |chunks| == |objs|
            && FinishSent(Last(chunks)) ==
               if !Last(objs).done then []
               else [if CallsBefore(objs, |objs|) > 0 then "tool_calls"
                     else if Last(objs).doneReason == "length" then "length" else "stop"]
  {
    OneChunkPerObject(lines, START, mint);
    EveryDrainIsWellFormed(lines, mint, |Relayed(lines)| - 1);
  }

  lemma OnlyLastFinishes(lines: seq<Line>, mint: int -> string)
    requires Relayed(lines) != []
    ensures var chunks := Drained(lines, START, mint);
            chunks != [] && FlatMap(FinishSent, chunks) == FinishSent(Last(chunks))
  {
    var chunks := Drained(lines, START, mint);
    OneChunkPerObject(lines, START, mint);
    forall i | 0 <= i < |chunks| - 1 ensures FinishSent(chunks[i]) == [] { EarlierIsUnfinished(lines, mint, i); }
    NoneFinishes(Front(chunks));
    assert chunks == Front(chunks) + [Last(chunks)];
    FlatMapSnoc(FinishSent, Front(chunks), Last(chunks));
  }

  /** The only finish reason of a stream is that of its done object, if there is one. */
  lemma FinishOfStream(lines: seq<Line>, mint: int -> string)
    ensures var objs := Relayed(lines);
            var reasons := FlatMap(FinishSent, Drained(lines, START, mint));
            if objs != [] && Last(objs).done
            then reasons == [if CallsBefore(objs, |objs|) > 0 then "tool_calls"
                             else if Last(objs).doneReason == "length" then "length" else "stop"]
            else reasons == []
  {
    OneChunkPerObject(lines, START, mint);
    if Relayed(lines) != [] {
      LastFinish(lines, mint);
      OnlyLastFinishes(lines, mint);
    }
  }

  /** From Ollama's lines to the client: tool_use exactly if any call came; max_tokens exactly if none came and
      the done line says "length"; end_turn in every other case, also when no done line came. */
  lemma StopFollowsFromLines(lines: seq<Line>, mint: int -> string)
    ensures var objs := Relayed(lines);
            var payloads := AsPayloads(Drained(lines, START, mint));
            var client := Anthropic.ReceiveAll(Anthropic.WAITING, Anthropic.Conversation(payloads));
            var cut := objs != [] && Last(objs).done && Last(objs).doneReason == "length";
            && client.Some? && client.value.stop.Some?
            && (client.value.stop.value == Anthropic.ToolUse <==> CallsOf(objs) != [])
            && (client.value.stop.value == Anthropic.MaxTokens <==> CallsOf(objs) == [] && cut)
            && (client.value.stop.value == Anthropic.EndTurn <==> CallsOf(objs) == [] && !cut)
  {
    var objs, chunks := Relayed(lines), Drained(lines, START, mint);
    OneChunkPerObject(lines, START, mint);
    forall i | 0 <= i < |chunks| ensures |chunks[i].choices| == 1 { EveryDrainIsWellFormed(lines, mint, i); }
    SentIsFragments(chunks);
    SentCallsAreOllamas(lines, mint, |chunks|);
    assert chunks[..|chunks|] == chunks && objs[..|objs|] == objs;
    FinishOfStream(lines, mint);
    Anthropic.StopFollowsFromPayloads(AsPayloads(chunks));
  }
}
