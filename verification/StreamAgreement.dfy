/**
 The non-streaming Anthropic translation, and exactly when a streamed reply reassembles to
 the same message.
*/
module StreamAgreement {
  import opened Prelude
  import opened Wire
  import opened Transducer
  import opened AnthropicStream

  // ── Non-streaming translation ────────────────────────────────────────────────

  /** Unicode white space, as strings.TrimSpace takes it. */
  predicate IsSpace(c: char) {
    var n := c as int;
    || 0x09 <= n <= 0x0D || n == 0x20 || n == 0x85 || n == 0xA0 || n == 0x1680
    || 0x2000 <= n <= 0x200A || n == 0x2028 || n == 0x2029 || n == 0x202F || n == 0x205F || n == 0x3000
  }

  predicate Blank(s: string) {
    forall i :: 0 <= i < |s| ==> IsSpace(s[i])
  }

  /** Arguments that are not valid JSON become an empty object. `valid` stands for json.Valid. */
  function ToolInput(args: string, valid: string -> bool): string {
    if Blank(args) || !valid(args) then "{}" else args
  }

  datatype Message = Message(blocks: seq<Raw>, stop: StopReason, usage: Usage)

  function CallRaw(c: ToolCall): Raw {
    RawTool(IdOf(c.id), c.name, c.args)
  }

  /** tool_use.input as the non-streaming path parses it; text is left alone. */
  function Settled(r: Raw, valid: string -> bool): Raw {
    match r
    case RawText(_) => r
    case RawTool(id, name, json) => RawTool(id, name, ToolInput(json, valid))
  }

  function AllSettled(rs: seq<Raw>, valid: string -> bool): (out: seq<Raw>)
    ensures |out| == |rs|
  {
    seq(|rs|, i requires 0 <= i < |rs| => Settled(rs[i], valid))
  }

  /** The text, if any, then one block per call. */
  function WholeBlocks(c: Completion): seq<Raw> {
    (if c.content == "" then [] else [RawText(c.content)])
    + seq(|c.calls|, i requires 0 <= i < |c.calls| => CallRaw(c.calls[i]))
  }

  function WholeMessage(c: Completion, valid: string -> bool): Message {
    Message(AllSettled(WholeBlocks(c), valid),
            if c.calls != [] then ToolUse else StopReasonFromFinish(if c.finish.Some? then c.finish.value else ""),
            c.usage)
  }

  /** The arguments reach the whole message as they are: valid JSON with something in it, or "{}" already. */
  predicate Survives(args: string, valid: string -> bool) {
    (valid(args) && exists k :: 0 <= k < |args| && !IsSpace(args[k])) || args == "{}"
  }

  /** The block of a call: its id or a minted one, its name, and its arguments or an empty object. */
  predicate IsBlockOf(r: Raw, c: ToolCall, valid: string -> bool) {
    && r.RawTool? && r.name == c.name
    && (c.id != "" ==> r.id == Issued(c.id)) && (c.id == "" ==> r.id == Minted)
    && (Survives(c.args, valid) ==> r.json == c.args)
    && (!Survives(c.args, valid) ==> r.json == "{}")
  }

  /** What a whole message holds, block by block. */
  predicate Holds(m: Message, c: Completion, valid: string -> bool) {
    var text := if c.content == "" then 0 else 1;
    && |m.blocks| == text + |c.calls|
    && (c.content != "" ==> m.blocks[0] == RawText(c.content))
    && (forall i :: 0 <= i < |c.calls| ==> IsBlockOf(m.blocks[text + i], c.calls[i], valid))
    && StopsFor(m.stop, c.calls != [], if c.finish.Some? then c.finish.value else "")
    && m.usage == c.usage
  }

  lemma ToolInputSurvives(args: string, valid: string -> bool)
    ensures ToolInput(args, valid) == if Survives(args, valid) then args else "{}"
  {
  }

  lemma WholeMessageHolds(c: Completion, valid: string -> bool)
    ensures Holds(WholeMessage(c, valid), c, valid)
  {
    var text := if c.content == "" then 0 else 1;
    forall i | 0 <= i < |c.calls| ensures IsBlockOf(WholeMessage(c, valid).blocks[text + i], c.calls[i], valid) {
      assert WholeBlocks(c)[text + i] == CallRaw(c.calls[i]);
      ToolInputSurvives(c.calls[i].args, valid);
    }
  }

  /** openAIToAnthropic: None is a completion without choices. */
  method OpenAIToAnthropic(c: Option<Completion>, usage: Usage, valid: string -> bool) returns (m: Message)
    requires c.Some? ==> c.value.usage == usage
    ensures c.Some? ==> m == WholeMessage(c.value, valid) && Holds(m, c.value, valid)
    ensures c.None? ==> m == Message([], EndTurn, usage)
  {
    m := Message([], EndTurn, usage);
    if c.None? {
      return;
    }
    var choice := c.value;
    if choice.content != "" {
      m := m.(blocks := m.blocks + [RawText(choice.content)]);
    }
    ghost var text := m.blocks;
    for i := 0 to |choice.calls|
      invariant m.stop == EndTurn && m.usage == usage
      invariant |m.blocks| == |text| + i && m.blocks == AllSettled(WholeBlocks(choice), valid)[..|text| + i]
    {
      var tc := choice.calls[i];
      m := m.(blocks := m.blocks + [RawTool(IdOf(tc.id), tc.name, ToolInput(tc.args, valid))]);
    }
    var finish := "";
    if choice.finish.Some? {
      finish := choice.finish.value;
    }
    m := m.(stop := StopReasonFromFinish(finish));
    if |choice.calls| > 0 {
      m := m.(stop := ToolUse);
    }
    assert m.blocks == AllSettled(WholeBlocks(choice), valid);
    WholeMessageHolds(choice, valid);
  }

  // ── What an OpenAI client accumulates ────────────────────────────────────────

  /** Calls are assembled by index; later fragments only add arguments. */
  function AddFragment(calls: seq<ToolCall>, f: Fragment): (r: seq<ToolCall>) {
    if calls == [] then [ToolCall(f.index, f.id, f.name, f.args)]
    else if calls[0].index == f.index then [calls[0].(args := calls[0].args + f.args)] + calls[1..]
    else [calls[0]] + AddFragment(calls[1..], f)
  }

  function AddFragments(calls: seq<ToolCall>, fs: seq<Fragment>): seq<ToolCall> {
    if fs == [] then calls else AddFragment(AddFragments(calls, Front(fs)), Last(fs))
  }

  const EMPTY := Completion("", [], None, Usage(0, 0))

  function AddChunk(c: Completion, payload: Option<Chunk>): Completion {
    if payload.None? then c else
    var u := if payload.value.usage.Some? then payload.value.usage.value else c.usage;
    if payload.value.choices == [] then c.(usage := u) else
    var ch := payload.value.choices[0];
    Completion(c.content + ch.delta.content, AddFragments(c.calls, ch.delta.toolCalls),
               if ch.finish.Some? then ch.finish else c.finish, u)
  }

  function Accumulated(payloads: seq<Option<Chunk>>): Completion {
    if payloads == [] then EMPTY else AddChunk(Accumulated(Front(payloads)), Last(payloads))
  }

  predicate SingleChoice(payloads: seq<Option<Chunk>>) {
    forall i :: 0 <= i < |payloads| && payloads[i].Some? ==> |payloads[i].value.choices| <= 1
  }

  /** The same accumulation, one piece at a time. */
  function AddPiece(c: Completion, p: Piece): Completion {
    match p
    case TextPiece(s) => c.(content := c.content + s)
    case ToolPiece(f) => c.(calls := AddFragment(c.calls, f))
    case FinishPiece(r) => c.(finish := Some(r))
    case UsagePiece(u) => c.(usage := u)
  }

  function AddPieces(c: Completion, ps: seq<Piece>): Completion {
    if ps == [] then c else AddPiece(AddPieces(c, Front(ps)), Last(ps))
  }

  lemma {:induction false} AddPiecesConcat(c: Completion, a: seq<Piece>, b: seq<Piece>)
    ensures AddPieces(c, a + b) == AddPieces(AddPieces(c, a), b)
    decreases |b|
  {
    if b == [] {
      assert a + b == a;
    } else {
      AddPiecesConcat(c, a, Front(b));
      assert Front(a + b) == a + Front(b);
    }
  }

  lemma AddOnePiece(c: Completion, p: Piece)
    ensures AddPieces(c, [p]) == AddPiece(c, p)
  {
    assert Front([p]) == [];
    assert AddPieces(c, []) == c;
  }

  lemma {:induction false} AddCallPieces(c: Completion, fs: seq<Fragment>)
    ensures AddPieces(c, CallPieces(fs)) == c.(calls := AddFragments(c.calls, fs))
    decreases |fs|
  {
    if fs != [] {
      AddCallPieces(c, Front(fs));
      assert Front(CallPieces(fs)) == CallPieces(Front(fs));
    }
  }

  lemma AddChoiceByPieces(c: Completion, ch: Choice)
    ensures AddPieces(c, ChoicePieces(ch))
         == Completion(c.content + ch.delta.content, AddFragments(c.calls, ch.delta.toolCalls),
                       if ch.finish.Some? then ch.finish else c.finish, c.usage)
  {
    var text, calls := [TextPiece(ch.delta.content)], CallPieces(ch.delta.toolCalls);
    AddOnePiece(c, text[0]);
    AddPiecesConcat(c, text, calls);
    AddCallPieces(AddPieces(c, text), ch.delta.toolCalls);
    if ch.finish.Some? {
      AddPiecesConcat(c, text + calls, [FinishPiece(ch.finish.value)]);
      AddOnePiece(AddPieces(c, text + calls), FinishPiece(ch.finish.value));
    } else {
      assert text + calls + [] == text + calls;
    }
  }

  function UsagePieces(usage: Option<Usage>): seq<Piece> {
    if usage.Some? then [UsagePiece(usage.value)] else []
  }

  lemma AddUsageByPieces(c: Completion, usage: Option<Usage>)
    ensures AddPieces(c, UsagePieces(usage)) == c.(usage := if usage.Some? then usage.value else c.usage)
  {
    if usage.Some? { AddOnePiece(c, UsagePiece(usage.value)); }
  }

  lemma AddChoicesByPieces(c: Completion, choices: seq<Choice>)
    requires |choices| <= 1
    ensures AddPieces(c, ChoicesPieces(choices))
         == if choices == [] then c
            else Completion(c.content + choices[0].delta.content, AddFragments(c.calls, choices[0].delta.toolCalls),
                            if choices[0].finish.Some? then choices[0].finish else c.finish, c.usage)
  {
    if choices != [] {
      assert choices == [choices[0]];
      FlatMapOne(ChoicePieces, choices[0]);
      AddChoiceByPieces(c, choices[0]);
    }
  }

  lemma AddChunkByPieces(c: Completion, payload: Option<Chunk>)
    requires payload.Some? ==> |payload.value.choices| <= 1
    ensures AddChunk(c, payload) == AddPieces(c, Pieces(payload))
  {
    match payload
    case None =>
    case Some(k) =>
      assert Pieces(payload) == UsagePieces(k.usage) + ChoicesPieces(k.choices);
      AddPiecesConcat(c, UsagePieces(k.usage), ChoicesPieces(k.choices));
      AddUsageByPieces(c, k.usage);
      AddChoicesByPieces(AddPieces(c, UsagePieces(k.usage)), k.choices);
  }

  lemma {:induction false} AccumulatedByPieces(payloads: seq<Option<Chunk>>)
    requires SingleChoice(payloads)
    ensures Accumulated(payloads) == AddPieces(EMPTY, AllPieces(payloads))
    decreases |payloads|
  {
    if payloads != [] {
      AccumulatedByPieces(Front(payloads));
      AddChunkByPieces(Accumulated(Front(payloads)), Last(payloads));
      AddPiecesConcat(EMPTY, AllPieces(Front(payloads)), Pieces(Last(payloads)));
    }
  }

  // ── When the two agree ───────────────────────────────────────────────────────

  function Noted(seen: seq<int>, p: Piece): seq<int> {
    if p.ToolPiece? then seen + [p.call.index] else seen
  }

  /** The tool indices in the order their fragments arrive. */
  function ToolIndices(ps: seq<Piece>): seq<int> {
    if ps == [] then [] else Noted(ToolIndices(Front(ps)), Last(ps))
  }

  /** Text may not follow a tool call, and a fragment either continues the latest call or starts one
      whose index is fresh. */
  predicate MayFollow(seen: seq<int>, p: Piece) {
    match p
    case TextPiece(s) => s == "" || seen == []
    case ToolPiece(f) => seen == [] || Last(seen) == f.index || f.index !in seen
    case _ => true
  }

  predicate Orderly(ps: seq<Piece>) {
    forall k :: 0 <= k < |ps| ==> MayFollow(ToolIndices(ps[..k]), ps[k])
  }

  lemma OrderlySnoc(ps: seq<Piece>, p: Piece)
    ensures Orderly(ps + [p]) <==> Orderly(ps) && MayFollow(ToolIndices(ps), p)
  {
    var qs := ps + [p];
    assert qs[..|ps|] == ps && qs[|ps|] == p;
    assert forall k :: 0 <= k < |ps| ==> qs[..k] == ps[..k] && qs[k] == ps[k];
  }

  function Indices(calls: seq<ToolCall>): (r: seq<int>)
    ensures |r| == |calls|
  {
    seq(|calls|, i requires 0 <= i < |calls| => calls[i].index)
  }

  lemma {:induction false} AddFragmentFresh(calls: seq<ToolCall>, f: Fragment)
    requires f.index !in Indices(calls)
    ensures AddFragment(calls, f) == calls + [ToolCall(f.index, f.id, f.name, f.args)]
    decreases |calls|
  {
    if calls != [] {
      assert Indices(calls)[0] == calls[0].index;
      assert Indices(calls[1..]) == Indices(calls)[1..];
      AddFragmentFresh(calls[1..], f);
    }
  }

  lemma {:induction false} AddFragmentKnown(calls: seq<ToolCall>, f: Fragment)
    requires f.index in Indices(calls)
    ensures Indices(AddFragment(calls, f)) == Indices(calls)
    decreases |calls|
  {
    var head, tail := calls[0], calls[1..];
    assert calls == [head] + tail;
    IndicesCons(head, tail);
    if head.index == f.index {
      IndicesCons(head.(args := head.args + f.args), tail);
    } else {
      AddFragmentKnown(tail, f);
      IndicesCons(head, AddFragment(tail, f));
    }
  }

  lemma IndicesCons(head: ToolCall, tail: seq<ToolCall>)
    ensures Indices([head] + tail) == [head.index] + Indices(tail)
  {
  }

  lemma {:induction false} AddFragmentLast(calls: seq<ToolCall>, f: Fragment)
    requires calls != [] && Last(calls).index == f.index && f.index !in Indices(Front(calls))
    ensures AddFragment(calls, f) == Front(calls) + [Last(calls).(args := Last(calls).args + f.args)]
    decreases |calls|
  {
    if |calls| > 1 {
      assert Indices(Front(calls))[0] == calls[0].index;
      assert Front(calls[1..]) == Front(calls)[1..];
      assert Indices(Front(calls)[1..]) == Indices(Front(calls))[1..];
      AddFragmentLast(calls[1..], f);
    }
  }

  function CountTools(rs: seq<Raw>): nat {
    if rs == [] then 0 else CountTools(Front(rs)) + (if Last(rs).RawTool? then 1 else 0)
  }

  lemma CountSnoc(rs: seq<Raw>, r: Raw)
    ensures CountTools(rs + [r]) == CountTools(rs) + (if r.RawTool? then 1 else 0)
  {
    assert Front(rs + [r]) == rs;
  }

  lemma {:induction false} CountWhole(c: Completion)
    ensures CountTools(WholeBlocks(c)) == |c.calls|
    decreases |c.calls|
  {
    if c.calls == [] {
      if c.content != "" {
        assert Front([RawText(c.content)]) == [];
        assert WholeBlocks(c) == [RawText(c.content)];
      }
    } else {
      var d := c.(calls := Front(c.calls));
      CountWhole(d);
      assert WholeBlocks(c) == WholeBlocks(d) + [CallRaw(Last(c.calls))];
      CountSnoc(WholeBlocks(d), CallRaw(Last(c.calls)));
    }
  }

  lemma {:induction false} CountSettled(rs: seq<Raw>, valid: string -> bool)
    ensures CountTools(AllSettled(rs, valid)) == CountTools(rs)
    decreases |rs|
  {
    if rs != [] {
      CountSettled(Front(rs), valid);
      assert Front(AllSettled(rs, valid)) == AllSettled(Front(rs), valid);
    }
  }

  /** The index of each tool block, in block order. */
  function BlockIndices(bs: seq<Block>): seq<int> {
    if bs == [] then [] else BlockIndices(Front(bs)) + (if Last(bs).ToolBlock? then [Last(bs).index] else [])
  }

  lemma BlockIndicesSnoc(bs: seq<Block>, b: Block)
    ensures BlockIndices(bs + [b]) == BlockIndices(bs) + (if b.ToolBlock? then [b.index] else [])
  {
    assert Front(bs + [b]) == bs;
  }

  lemma {:induction false} BlockIndicesCount(bs: seq<Block>)
    ensures |BlockIndices(bs)| == CountTools(RawsOf(bs))
    decreases |bs|
  {
    if bs != [] {
      BlockIndicesCount(Front(bs));
      assert Front(RawsOf(bs)) == RawsOf(Front(bs));
    }
  }

  /** Whatever the order: the calls' indices are those seen, every tool block has one of them, and there
      are at least as many tool blocks as calls. */
  ghost predicate Covered(bs: seq<Block>, c: Completion, seen: seq<int>) {
    && (forall x: int :: x in seen <==> x in Indices(c.calls))
    && (forall x: int :: x in BlockIndices(bs) ==> x in Indices(c.calls))
    && |c.calls| <= |BlockIndices(bs)|
  }

  /** The streamed blocks can no longer come out as the whole message's: there is text after the first
      block, or one call got more than one block. */
  ghost predicate Diverged(bs: seq<Block>, c: Completion) {
    || (exists j :: 1 <= j < |bs| && bs[j].TextBlock?)
    || |BlockIndices(bs)| > |c.calls|
  }

  ghost predicate Matches(bs: seq<Block>, c: Completion, seen: seq<int>) {
    && RawsOf(bs) == WholeBlocks(c)
    && BlockIndices(bs) == Indices(c.calls)
    && (c.calls != [] ==> Last(c.calls).index !in Indices(Front(c.calls)))
    && (c.calls != [] ==> seen != [] && Last(seen) == Last(c.calls).index)
  }

  lemma LastToolIsListed(bs: seq<Block>)
    requires bs != [] && Last(bs).ToolBlock?
    ensures Last(bs).index in BlockIndices(bs)
  {
    assert BlockIndices(bs) == BlockIndices(Front(bs)) + [Last(bs).index];
  }

  lemma IndicesSnoc(calls: seq<ToolCall>, c: ToolCall)
    ensures Indices(calls + [c]) == Indices(calls) + [c.index]
  {
  }

  lemma CallIndicesStep(calls: seq<ToolCall>, f: Fragment)
    ensures Indices(AddFragment(calls, f)) == Indices(calls) + (if f.index in Indices(calls) then [] else [f.index])
  {
    if f.index in Indices(calls) {
      AddFragmentKnown(calls, f);
    } else {
      AddFragmentFresh(calls, f);
      IndicesSnoc(calls, ToolCall(f.index, f.id, f.name, f.args));
    }
  }

  predicate Continues(bs: seq<Block>, f: Fragment) {
    bs != [] && Last(bs).ToolBlock? && Last(bs).index == f.index
  }

  lemma BlockIndicesStep(bs: seq<Block>, p: Piece)
    ensures BlockIndices(Extend(bs, p))
         == BlockIndices(bs) + (if p.ToolPiece? && !Continues(bs, p.call) then [p.call.index] else [])
  {
    match p
    case TextPiece(s) =>
      if s != "" {
        if bs != [] && Last(bs).TextBlock? { BlockIndicesSnoc(Front(bs), WithPart(Last(bs), s)); }
        else { BlockIndicesSnoc(bs, TextBlock([s])); }
      }
    case ToolPiece(f) =>
      if Continues(bs, f) { BlockIndicesSnoc(Front(bs), WithPart(Last(bs), f.args)); }
      else { BlockIndicesSnoc(bs, ToolBlock(f.index, IdOf(f.id), f.name, NonEmpty(f.args))); }
    case _ =>
  }

  lemma CoveredStep(bs: seq<Block>, c: Completion, seen: seq<int>, p: Piece)
    requires Covered(bs, c, seen)
    ensures Covered(Extend(bs, p), AddPiece(c, p), Noted(seen, p))
  {
    BlockIndicesStep(bs, p);
    if p.ToolPiece? {
      CallIndicesStep(c.calls, p.call);
      if Continues(bs, p.call) { LastToolIsListed(bs); }
      assert |Indices(AddFragment(c.calls, p.call))| == |AddFragment(c.calls, p.call)|;
    }
  }

  lemma DivergedStays(bs: seq<Block>, c: Completion, seen: seq<int>, p: Piece)
    requires Covered(bs, c, seen) && Diverged(bs, c)
    ensures Diverged(Extend(bs, p), AddPiece(c, p))
  {
    BlockIndicesStep(bs, p);
    if p.ToolPiece? {
      CallIndicesStep(c.calls, p.call);
      if Continues(bs, p.call) { LastToolIsListed(bs); }
      assert |Indices(AddFragment(c.calls, p.call))| == |AddFragment(c.calls, p.call)|;
    }
    if j :| 1 <= j < |bs| && bs[j].TextBlock? {
      assert Extend(bs, p)[j].TextBlock?;
    }
  }

  lemma WholeAppend(c: Completion, call: ToolCall)
    ensures WholeBlocks(c.(calls := c.calls + [call])) == WholeBlocks(c) + [CallRaw(call)]
  {
  }

  lemma WholeReplaceLast(c: Completion, call: ToolCall)
    requires c.calls != []
    ensures WholeBlocks(c) != [] && Last(WholeBlocks(c)) == CallRaw(Last(c.calls))
    ensures WholeBlocks(c.(calls := Front(c.calls) + [call])) == Front(WholeBlocks(c)) + [CallRaw(call)]
  {
    var d := c.(calls := Front(c.calls));
    assert c.calls == d.calls + [Last(c.calls)];
    WholeAppend(d, Last(c.calls));
    WholeAppend(d, call);
  }

  /** When the blocks match and calls exist, the last block is the last call's. */
  lemma LastBlockIsLastCall(bs: seq<Block>, c: Completion, seen: seq<int>)
    requires Covered(bs, c, seen) && Matches(bs, c, seen) && seen != []
    ensures bs != [] && c.calls != [] && Last(bs).ToolBlock?
    ensures Last(bs).index == Last(c.calls).index == Last(seen) && RawOf(Last(bs)) == CallRaw(Last(c.calls))
  {
    var x := Last(seen);
    assert x in seen;
    assert x in Indices(c.calls);
    WholeReplaceLast(c, Last(c.calls));
    assert RawOf(Last(bs)) == Last(RawsOf(bs));
    assert BlockIndices(bs) == BlockIndices(Front(bs)) + [Last(bs).index];
    assert Last(Indices(c.calls)) == Last(c.calls).index;
  }

  lemma WholeText(c: Completion)
    requires c.calls == []
    ensures WholeBlocks(c) == if c.content == "" then [] else [RawText(c.content)]
  {
  }

  lemma TextMatches(bs: seq<Block>, c: Completion, s: string)
    requires Covered(bs, c, []) && Matches(bs, c, []) && s != ""
    ensures Matches(Extend(bs, TextPiece(s)), AddPiece(c, TextPiece(s)), [])
  {
    BlockIndicesStep(bs, TextPiece(s));
    assert c.calls == [];
    WholeText(c);
    WholeText(c.(content := c.content + s));
    TextBlocks(bs, c.content, s);
  }

  lemma TextBlocks(bs: seq<Block>, content: string, s: string)
    requires RawsOf(bs) == (if content == "" then [] else [RawText(content)]) && s != ""
    ensures RawsOf(Extend(bs, TextPiece(s))) == [RawText(content + s)]
  {
    if bs == [] {
      OneFragment(s);
      assert content + s == s;
    } else {
      assert |bs| == 1 && RawOf(bs[0]) == RawsOf(bs)[0];
      JoinedSnoc(bs[0].parts, s);
      RawsReplaceLast(bs, WithPart(bs[0], s));
    }
  }

  lemma ContinuedBlock(b: Block, c: ToolCall, s: string)
    requires RawOf(b) == CallRaw(c)
    ensures RawOf(WithPart(b, s)) == CallRaw(c.(args := c.args + s))
  {
    if s == "" { assert c.args + "" == c.args; } else { JoinedSnoc(b.parts, s); }
  }

  lemma ContinuedCallMatches(bs: seq<Block>, c: Completion, seen: seq<int>, f: Fragment)
    requires Covered(bs, c, seen) && Matches(bs, c, seen) && seen != [] && Last(seen) == f.index
    ensures Matches(Extend(bs, ToolPiece(f)), AddPiece(c, ToolPiece(f)), Noted(seen, ToolPiece(f)))
  {
    LastBlockIsLastCall(bs, c, seen);
    BlockIndicesStep(bs, ToolPiece(f));
    AddFragmentLast(c.calls, f);
    var call := Last(c.calls).(args := Last(c.calls).args + f.args);
    IndicesReplaceLast(c.calls, call);
    ContinuedBlock(Last(bs), Last(c.calls), f.args);
    RawsReplaceLast(bs, WithPart(Last(bs), f.args));
    WholeReplaceLast(c, call);
  }

  lemma IndicesReplaceLast(calls: seq<ToolCall>, c: ToolCall)
    requires calls != [] && Last(calls).index == c.index
    ensures Indices(Front(calls) + [c]) == Indices(calls)
    ensures Front(Front(calls) + [c]) == Front(calls)
  {
  }

  lemma FreshCallMatches(bs: seq<Block>, c: Completion, seen: seq<int>, f: Fragment)
    requires Covered(bs, c, seen) && Matches(bs, c, seen) && f.index !in seen
    ensures Matches(Extend(bs, ToolPiece(f)), AddPiece(c, ToolPiece(f)), Noted(seen, ToolPiece(f)))
  {
    var b, call := ToolBlock(f.index, IdOf(f.id), f.name, NonEmpty(f.args)), ToolCall(f.index, f.id, f.name, f.args);
    if Continues(bs, f) { LastToolIsListed(bs); }
    BlockIndicesStep(bs, ToolPiece(f));
    CallIndicesStep(c.calls, f);
    AddFragmentFresh(c.calls, f);
    if f.args != "" { OneFragment(f.args); }
    RawsAppend(bs, b);
    WholeAppend(c, call);
    assert Front(c.calls + [call]) == c.calls;
  }

  lemma OrderStepMatches(bs: seq<Block>, c: Completion, seen: seq<int>, p: Piece)
    requires Covered(bs, c, seen) && Matches(bs, c, seen) && MayFollow(seen, p)
    ensures Matches(Extend(bs, p), AddPiece(c, p), Noted(seen, p))
  {
    match p
    case TextPiece(s) =>
      if s != "" { TextMatches(bs, c, s); } else { assert c.content + "" == c.content; }
    case ToolPiece(f) =>
      if seen != [] && Last(seen) == f.index { ContinuedCallMatches(bs, c, seen, f); }
      else { FreshCallMatches(bs, c, seen, f); }
    case _ =>
  }

  lemma DisorderDiverges(bs: seq<Block>, c: Completion, seen: seq<int>, p: Piece)
    requires Covered(bs, c, seen) && Matches(bs, c, seen) && !MayFollow(seen, p)
    ensures Diverged(Extend(bs, p), AddPiece(c, p))
  {
    LastBlockIsLastCall(bs, c, seen);
    BlockIndicesStep(bs, p);
    if p.TextPiece? {
      assert Extend(bs, p)[|bs|].TextBlock?;
    } else {
      CallIndicesStep(c.calls, p.call);
      assert |Indices(AddFragment(c.calls, p.call))| == |Indices(c.calls)|;
    }
  }

  lemma {:induction false} OrderDecides(ps: seq<Piece>)
    ensures Covered(Blocks(ps), AddPieces(EMPTY, ps), ToolIndices(ps))
    ensures if Orderly(ps) then Matches(Blocks(ps), AddPieces(EMPTY, ps), ToolIndices(ps))
            else Diverged(Blocks(ps), AddPieces(EMPTY, ps))
    decreases |ps|
  {
    if ps != [] {
      var rest, p := Front(ps), Last(ps);
      var bs, c, seen := Blocks(rest), AddPieces(EMPTY, rest), ToolIndices(rest);
      assert rest + [p] == ps;
      OrderlySnoc(rest, p);
      OrderDecides(rest);
      CoveredStep(bs, c, seen, p);
      if !Orderly(rest) { DivergedStays(bs, c, seen, p); }
      else if MayFollow(seen, p) { OrderStepMatches(bs, c, seen, p); }
      else { DisorderDiverges(bs, c, seen, p); }
    }
  }

  lemma {:induction false} StopAndUsage(ps: seq<Piece>)
    ensures var c := AddPieces(EMPTY, ps);
            && (c.calls != [] <==> HasTool(ps)) && c.usage == LastUsage(ps)
            && LastFinish(ps) == (if c.finish.Some? then c.finish.value else "")
    decreases |ps|
  {
    if ps != [] {
      StopAndUsage(Front(ps));
      assert Front(ps) + [Last(ps)] == ps;
      BlocksSnoc(Front(ps), Last(ps));
    }
  }

  lemma DivergedDiffers(bs: seq<Block>, c: Completion, valid: string -> bool)
    requires Diverged(bs, c)
    ensures AllSettled(RawsOf(bs), valid) != AllSettled(WholeBlocks(c), valid)
  {
    var streamed, whole := AllSettled(RawsOf(bs), valid), AllSettled(WholeBlocks(c), valid);
    if |BlockIndices(bs)| > |c.calls| {
      CountSettled(RawsOf(bs), valid);
      CountSettled(WholeBlocks(c), valid);
      CountWhole(c);
      BlockIndicesCount(bs);
    } else {
      var j :| 1 <= j < |bs| && bs[j].TextBlock?;
      assert streamed[j] == Settled(RawsOf(bs)[j], valid) && RawsOf(bs)[j] == RawOf(bs[j]);
      if j < |whole| { assert whole[j] == Settled(WholeBlocks(c)[j], valid); }
    }
  }

  /** For every single-choice stream: what a client reassembles from the Anthropic events (arguments
      parsed as the non-streaming path parses them) has the stop reason and usage of the translated
      whole completion, and has its blocks if and only if the pieces came in order. Minted ids compare equal. */
  lemma StreamAgreesExactlyWhenOrderly(payloads: seq<Option<Chunk>>, valid: string -> bool)
    requires SingleChoice(payloads)
    ensures ReceiveAll(WAITING, Conversation(payloads)).Some?
    ensures var streamed := ReceiveAll(WAITING, Conversation(payloads)).value;
            var whole := WholeMessage(Accumulated(payloads), valid);
            && streamed.stop == Some(whole.stop) && streamed.usage == whole.usage
            && (AllSettled(streamed.blocks, valid) == whole.blocks <==> Orderly(AllPieces(payloads)))
  {
    var ps := AllPieces(payloads);
    EveryStreamIsWellFormed(payloads);
    AccumulatedByPieces(payloads);
    StopAndUsage(ps);
    OrderDecides(ps);
    if !Orderly(ps) { DivergedDiffers(Blocks(ps), AddPieces(EMPTY, ps), valid); }
  }

  lemma SettledTwice(r: Raw, valid: string -> bool)
    ensures Settled(Settled(r, valid), valid) == Settled(r, valid)
  {
  }

  /** Normalising the arguments changes nothing exactly when every call's arguments are already as the
      non-streaming path would send them. */
  lemma SettledAlready(c: Completion, valid: string -> bool)
    ensures AllSettled(WholeBlocks(c), valid) == WholeBlocks(c)
       <==> forall i :: 0 <= i < |c.calls| ==> ToolInput(c.calls[i].args, valid) == c.calls[i].args
  {
    var text: seq<Raw>, calls := if c.content == "" then [] else [RawText(c.content)], CallRaws(c.calls);
    assert WholeBlocks(c) == text + calls;
    assert AllSettled(text, valid) == text;
    SettledParts(text, calls, valid);
    if AllSettled(calls, valid) == calls {
      forall i | 0 <= i < |c.calls| ensures ToolInput(c.calls[i].args, valid) == c.calls[i].args {
        assert AllSettled(calls, valid)[i] == calls[i] == CallRaw(c.calls[i]);
      }
    }
  }

  function CallRaws(calls: seq<ToolCall>): (rs: seq<Raw>)
    ensures |rs| == |calls|
  {
    seq(|calls|, i requires 0 <= i < |calls| => CallRaw(calls[i]))
  }

  lemma SettledParts(text: seq<Raw>, calls: seq<Raw>, valid: string -> bool)
    requires AllSettled(text, valid) == text
    ensures AllSettled(text + calls, valid) == text + calls <==> AllSettled(calls, valid) == calls
  {
    assert AllSettled(text + calls, valid) == AllSettled(text, valid) + AllSettled(calls, valid);
    assert (text + AllSettled(calls, valid))[|text|..] == AllSettled(calls, valid);
    assert (text + calls)[|text|..] == calls;
  }

  /** Blocks that diverged differ from the whole message as sent, too. */
  lemma DivergedDiffersRaw(bs: seq<Block>, c: Completion, valid: string -> bool)
    requires Diverged(bs, c)
    ensures RawsOf(bs) != AllSettled(WholeBlocks(c), valid)
  {
    DivergedDiffers(bs, c, valid);
    var whole := AllSettled(WholeBlocks(c), valid);
    forall k | 0 <= k < |whole| ensures AllSettled(whole, valid)[k] == whole[k] {
      SettledTwice(WholeBlocks(c)[k], valid);
    }
    assert AllSettled(whole, valid) == whole;
  }

  /** For every single-choice stream, without normalising the streamed arguments: the blocks a client
      reassembles are those of the whole message if and only if the pieces came in order and every call's
      arguments are valid JSON with something in it, or "{}" already. */
  lemma RawBlocksAgreeExactlyWhen(payloads: seq<Option<Chunk>>, valid: string -> bool)
    requires SingleChoice(payloads)
    ensures ReceiveAll(WAITING, Conversation(payloads)).Some?
    ensures var c := Accumulated(payloads);
            ReceiveAll(WAITING, Conversation(payloads)).value.blocks == WholeMessage(c, valid).blocks
            <==> Orderly(AllPieces(payloads))
                 && forall i :: 0 <= i < |c.calls| ==> Survives(c.calls[i].args, valid)
  {
    var ps, c := AllPieces(payloads), Accumulated(payloads);
    EveryStreamIsWellFormed(payloads);
    AccumulatedByPieces(payloads);
    OrderDecides(ps);
    forall i | 0 <= i < |c.calls|
      ensures ToolInput(c.calls[i].args, valid) == c.calls[i].args <==> Survives(c.calls[i].args, valid)
    {
      ToolInputSurvives(c.calls[i].args, valid);
    }
    if Orderly(ps) { SettledAlready(c, valid); } else { DivergedDiffersRaw(Blocks(ps), c, valid); }
  }

  /** The pieces of a one-chunk stream that carries one fragment. */
  lemma OneCallPieces(f: Fragment, payload: Chunk)
    requires payload == Chunk("", [Choice(Delta("", "", [f]), None)], None)
    ensures AllPieces([Some(payload)]) == [TextPiece(""), ToolPiece(f)]
  {
    FlatMapOne(Pieces, Some(payload));
    FlatMapOne(ChoicePieces, payload.choices[0]);
  }

  lemma OneCallBlocks(f: Fragment)
    requires f.args != ""
    ensures Blocks([TextPiece(""), ToolPiece(f)]) == [ToolBlock(f.index, IdOf(f.id), f.name, [f.args])]
    ensures RawsOf([ToolBlock(f.index, IdOf(f.id), f.name, [f.args])]) == [RawTool(IdOf(f.id), f.name, f.args)]
  {
    var one, two := [TextPiece("")], [TextPiece(""), ToolPiece(f)];
    assert Front(two) == one && Front(one) == [];
    assert Blocks(one) == [] && Blocks(two) == Extend([], ToolPiece(f));
    OneFragment(f.args);
  }

  lemma OneCallWhole(f: Fragment)
    ensures WholeBlocks(AddPieces(EMPTY, [TextPiece(""), ToolPiece(f)])) == [RawTool(IdOf(f.id), f.name, f.args)]
  {
    var one, two := [TextPiece("")], [TextPiece(""), ToolPiece(f)];
    assert Front(two) == one;
    AddOnePiece(EMPTY, TextPiece(""));
    assert AddPieces(EMPTY, two) == AddPiece(AddPieces(EMPTY, one), ToolPiece(f));
  }

  /** Arguments that are not valid JSON are where the two paths visibly differ: the stream relays them,
      the whole message carries an empty object instead. */
  lemma InvalidArgumentsDiffer(f: Fragment, valid: string -> bool, payload: Chunk)
    requires f.args != "" && !valid(f.args) && payload == Chunk("", [Choice(Delta("", "", [f]), None)], None)
    ensures ReceiveAll(WAITING, Conversation([Some(payload)])).Some?
    ensures ReceiveAll(WAITING, Conversation([Some(payload)])).value.blocks == [RawTool(IdOf(f.id), f.name, f.args)]
    ensures WholeMessage(Accumulated([Some(payload)]), valid).blocks == [RawTool(IdOf(f.id), f.name, "{}")]
  {
    EveryStreamIsWellFormed([Some(payload)]);
    AccumulatedByPieces([Some(payload)]);
    OneCallPieces(f, payload);
    OneCallBlocks(f);
    OneCallWhole(f);
  }
}
