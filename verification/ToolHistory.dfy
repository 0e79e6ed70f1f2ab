/**
 The request pipeline for message histories: Anthropic turns become OpenAI messages, are
 sanitised, and become Ollama messages. What must survive is the link between a tool result and
 the call it answers: Anthropic and OpenAI link by id, Ollama only by the function's name.
*/
module ToolHistory {
  import opened Prelude
  import opened Wire
  import opened Transducer

  datatype Json = Null | Bool(b: bool) | Num(n: int) | Str(s: string)
                | Arr(items: seq<Json>) | Obj(fields: map<string, Json>)

  /** What the pipeline takes as given: the JSON codec, the per-text cap, and the extraction of inline
      image data from a URL. */
  datatype Env = Env(marshal: Json -> string, unmarshal: string -> Option<Json>, truncate: string -> string,
                     inlineImage: string -> Option<string>)

  ghost predicate Faithful(env: Env) {
    && (forall j :: env.unmarshal(env.marshal(j)) == Some(j))
    && env.marshal(Obj(map[])) == "{}"
  }

  // ── Messages in the three dialects; an absent field is Null, "" or [] ────────

  /** tool_result content: a string, or blocks of which only text ones (Some) count. */
  datatype ResultContent = Plain(s: string) | Blocks(texts: seq<Option<string>>)

  datatype Block =
    | Text(text: string)
    | Image(url: string)                       // "" when the source is unusable
    | ToolUse(id: Json, name: Json, input: Json)
    | ToolResult(useId: Json, content: ResultContent, isError: bool)
    | Ignored                                  // thinking and unknown blocks

  datatype Turn = Said(role: string, s: string) | Sent(role: string, blocks: seq<Block>)

  datatype Part = TextPart(s: string) | ImagePart(url: string)

  datatype Content = Str1(s: string) | Parts(parts: seq<Part>) | NoContent

  datatype Call = Call(id: Json, name: Json, args: string)

  datatype OpenAI = OpenAI(role: string, content: Content, calls: seq<Call>, callId: Json, name: Json)

  datatype OllamaCall = OllamaCall(name: string, args: Json)

  datatype Ollama = Ollama(role: string, content: string, images: seq<string>, calls: seq<OllamaCall>, toolName: string)

  // ── Anthropic to OpenAI ──────────────────────────────────────────────────────

  /** strings.Join. */
  function Join(texts: seq<string>, sep: string): string {
    if texts == [] then ""
    else if |texts| == 1 then texts[0]
    else Join(Front(texts), sep) + sep + Last(texts)
  }

  lemma JoinSnoc(texts: seq<string>, s: string, sep: string)
    ensures Join(texts + [s], sep) == if texts == [] then s else Join(texts, sep) + sep + s
  {
    assert Front(texts + [s]) == texts;
  }

  /** What a text block of a result or a system prompt says, if anything. */
  function Said1(t: Option<string>): seq<string> {
    if t.Some? && t.value != "" then [t.value] else []
  }

  /** A string as it is; the non-empty texts of a block list, joined by blank lines. */
  function Spoken(c: ResultContent): string {
    match c
    case Plain(s) => s
    case Blocks(ts) => Join(FlatMap(Said1, ts), "\n\n")
  }

  method BlocksText(c: ResultContent) returns (s: string)
    ensures s == Spoken(c)
  {
    match c
    case Plain(s) => return s;
    case Blocks(ts) =>
      var texts := [];
      for i := 0 to |ts|
        invariant texts == FlatMap(Said1, ts[..i])
      {
        assert ts[..i + 1] == ts[..i] + [ts[i]];
        FlatMapSnoc(Said1, ts[..i], ts[i]);
        if ts[i].Some? && ts[i].value != "" {
          texts := texts + [ts[i].value];
        }
      }
      assert ts[..|ts|] == ts;
      s := Join(texts, "\n\n");
  }

  function ResultOf(b: Block): seq<OpenAI> {
    match b
    case ToolResult(id, c, isError) =>
      [OpenAI("tool", Str1((if isError then "Error: " else "") + Spoken(c)), [], id, Null)]
    case _ => []
  }

  function PartOf(b: Block): seq<Part> {
    match b
    case Text(s) => [TextPart(s)]
    case Image(u) => if u == "" then [] else [ImagePart(u)]
    case _ => []
  }

  function ArgumentsOf(env: Env, input: Json): string {
    if input == Null then "{}" else env.marshal(input)
  }

  function CallOf(env: Env): Block -> seq<Call> {
    (b: Block) => if b.ToolUse? then [Call(b.id, b.name, ArgumentsOf(env, b.input))] else []
  }

  predicate HasImage(parts: seq<Part>) {
    exists i :: 0 <= i < |parts| && parts[i].ImagePart?
  }

  function FilledText(p: Part): seq<string> {
    if p.TextPart? && p.s != "" then [p.s] else []
  }

  method JoinTextParts(parts: seq<Part>) returns (s: string)
    ensures s == Join(FlatMap(FilledText, parts), "\n\n")
  {
    var texts := [];
    for i := 0 to |parts|
      invariant texts == FlatMap(FilledText, parts[..i])
    {
      assert parts[..i + 1] == parts[..i] + [parts[i]];
      FlatMapSnoc(FilledText, parts[..i], parts[i]);
      if parts[i].TextPart? && parts[i].s != "" {
        texts := texts + [parts[i].s];
      }
    }
    assert parts[..|parts|] == parts;
    s := Join(texts, "\n\n");
  }

  function TurnContent(parts: seq<Part>): Content {
    if HasImage(parts) then Parts(parts)
    else if parts != [] then Str1(Join(FlatMap(FilledText, parts), "\n\n"))
    else NoContent
  }

  function Remainder(role: string, parts: seq<Part>, calls: seq<Call>): seq<OpenAI> {
    if parts == [] && calls == [] then [] else [OpenAI(role, TurnContent(parts), calls, Null, Null)]
  }

  function Expanded(env: Env, turn: Turn): seq<OpenAI> {
    match turn
    case Said(role, s) => [OpenAI(role, Str1(s), [], Null, Null)]
    case Sent(role, bs) => FlatMap(ResultOf, bs) + Remainder(role, FlatMap(PartOf, bs), FlatMap(CallOf(env), bs))
  }

  lemma HasImageSnoc(parts: seq<Part>, p: Part)
    ensures HasImage(parts + [p]) == (HasImage(parts) || p.ImagePart?)
  {
    if HasImage(parts) {
      var j :| 0 <= j < |parts| && parts[j].ImagePart?;
      assert (parts + [p])[j].ImagePart?;
    }
    if p.ImagePart? { assert (parts + [p])[|parts|].ImagePart?; }
  }

  /** The "tool" message for a result block. */
  method AddResult(sofar: seq<OpenAI>, b: Block) returns (out: seq<OpenAI>)
    ensures out == sofar + ResultOf(b)
  {
    out := sofar;
    if b.ToolResult? {
      var said := BlocksText(b.content);
      var content := said;
      if b.isError {
        content := "Error: " + content;
      }
      assert "" + said == said;
      out := out + [OpenAI("tool", Str1(content), [], b.useId, Null)];
    }
  }

  method AddPart(sofar: seq<Part>, had: bool, b: Block) returns (parts: seq<Part>, hasImage: bool)
    requires had == HasImage(sofar)
    ensures parts == sofar + PartOf(b) && hasImage == HasImage(parts)
  {
    parts, hasImage := sofar, had;
    if b.Text? {
      HasImageSnoc(parts, TextPart(b.text));
      parts := parts + [TextPart(b.text)];
    } else if b.Image? && b.url != "" {
      HasImageSnoc(parts, ImagePart(b.url));
      parts, hasImage := parts + [ImagePart(b.url)], true;
    }
  }

  method AddCall(env: Env, sofar: seq<Call>, b: Block) returns (calls: seq<Call>)
    ensures calls == sofar + CallOf(env)(b)
  {
    calls := sofar;
    if b.ToolUse? {
      calls := calls + [Call(b.id, b.name, ArgumentsOf(env, b.input))];
    }
  }

  /** One pass over a turn's blocks with its accumulators. */
  method SplitBlocks(env: Env, bs: seq<Block>)
      returns (out: seq<OpenAI>, parts: seq<Part>, calls: seq<Call>, hasImage: bool)
    ensures out == FlatMap(ResultOf, bs) && parts == FlatMap(PartOf, bs) && calls == FlatMap(CallOf(env), bs)
    ensures hasImage == HasImage(parts)
  {
    out, parts, calls, hasImage := [], [], [], false;
    ghost var done: seq<Block>, call := [], CallOf(env);
    for i := 0 to |bs|
      invariant done == bs[..i]
      invariant out == FlatMap(ResultOf, done) && parts == FlatMap(PartOf, done) && calls == FlatMap(call, done)
      invariant hasImage == HasImage(parts)
    {
      FlatMapSnoc(ResultOf, done, bs[i]);
      FlatMapSnoc(PartOf, done, bs[i]);
      FlatMapSnoc(call, done, bs[i]);
      done := done + [bs[i]];
      out := AddResult(out, bs[i]);
      parts, hasImage := AddPart(parts, hasImage, bs[i]);
      calls := AddCall(env, calls, bs[i]);
    }
    assert done == bs;
  }

  /** anthropicMessageToOpenAI. */
  method ExpandTurn(env: Env, turn: Turn) returns (out: seq<OpenAI>)
    ensures out == Expanded(env, turn)
  {
    if turn.Said? {
      return [OpenAI(turn.role, Str1(turn.s), [], Null, Null)];
    }
    var parts, calls, hasImage;
    out, parts, calls, hasImage := SplitBlocks(env, turn.blocks);
    if |parts| == 0 && |calls| == 0 {
      return;
    }
    var content := NoContent;
    if hasImage {
      content := Parts(parts);
    } else if |parts| > 0 {
      var text := JoinTextParts(parts);
      content := Str1(text);
    }
    out := out + [OpenAI(turn.role, content, calls, Null, Null)];
  }

  function Expander(env: Env): Turn -> seq<OpenAI> {
    (t: Turn) => Expanded(env, t)
  }

  function ExpandedAll(env: Env, turns: seq<Turn>): seq<OpenAI> {
    FlatMap(Expander(env), turns)
  }

  /** The system prompt goes first, as a turn of its own, when there is text in it. */
  function WithSystem(system: ResultContent, turns: seq<Turn>): seq<Turn> {
    (if Spoken(system) == "" then [] else [Said("system", Spoken(system))]) + turns
  }

  /** The system text, if there is any, is the first message; the turns' own messages are the rest. */
  predicate SystemFirst(messages: seq<OpenAI>, system: ResultContent, rest: seq<OpenAI>) {
    var text := match system
                case Plain(s) => s
                case Blocks(ts) => Join(FlatMap(Said1, ts), "\n\n");
    messages == (if text == "" then [] else [OpenAI("system", Str1(text), [], Null, Null)]) + rest
  }

  /** anthropicToOpenAI's messages. */
  method AnthropicToOpenAI(env: Env, system: ResultContent, turns: seq<Turn>) returns (messages: seq<OpenAI>)
    ensures messages == ExpandedAll(env, WithSystem(system, turns))
    ensures SystemFirst(messages, system, ExpandedAll(env, turns))
  {
    messages := [];
    var sys := BlocksText(system);
    ghost var first: seq<Turn> := [];
    if sys != "" {
      messages := [OpenAI("system", Str1(sys), [], Null, Null)];
      first := [Said("system", sys)];
      FlatMapOne(Expander(env), first[0]);
    }
    messages := AppendTurns(env, messages, first, turns);
    SystemIsFirst(env, system, turns);
  }

  /** The loop over the turns; `first` is what `sofar` came from. */
  method AppendTurns(env: Env, sofar: seq<OpenAI>, ghost first: seq<Turn>, turns: seq<Turn>)
      returns (messages: seq<OpenAI>)
    requires sofar == ExpandedAll(env, first)
    ensures messages == ExpandedAll(env, first + turns)
  {
    messages := sofar;
    ghost var done := first;
    for i := 0 to |turns|
      invariant done == first + turns[..i] && messages == ExpandedAll(env, done)
    {
      messages := AppendTurn(env, messages, done, turns[i]);
      done := done + [turns[i]];
    }
    assert done == first + turns;
  }

  method AppendTurn(env: Env, sofar: seq<OpenAI>, ghost done: seq<Turn>, turn: Turn) returns (messages: seq<OpenAI>)
    requires sofar == ExpandedAll(env, done)
    ensures messages == ExpandedAll(env, done + [turn])
  {
    FlatMapSnoc(Expander(env), done, turn);
    var more := ExpandTurn(env, turn);
    messages := sofar + more;
  }

  lemma SystemIsFirst(env: Env, system: ResultContent, turns: seq<Turn>)
    ensures SystemFirst(ExpandedAll(env, WithSystem(system, turns)), system, ExpandedAll(env, turns))
  {
    if Spoken(system) == "" {
      assert WithSystem(system, turns) == turns;
      assert [] + ExpandedAll(env, turns) == ExpandedAll(env, turns);
    } else {
      FlatMapConcat(Expander(env), [Said("system", Spoken(system))], turns);
      FlatMapOne(Expander(env), Said("system", Spoken(system)));
    }
  }

  // ── Sanitising ───────────────────────────────────────────────────────────────

  function CappedPart(env: Env, p: Part): Part {
    if p.TextPart? then TextPart(env.truncate(p.s)) else p
  }

  function Capper(env: Env): Part -> seq<Part> {
    (p: Part) => [CappedPart(env, p)]
  }

  function CappedContent(env: Env, c: Content): Content {
    match c
    case Str1(s) => Str1(env.truncate(s))
    case Parts(ps) => Parts(FlatMap(Capper(env), ps))
    case NoContent => NoContent
  }

  /** Null content is kept only beside tool calls. */
  function Sanitised(env: Env, m: OpenAI): OpenAI {
    var c := CappedContent(env, m.content);
    m.(content := if c.NoContent? && m.calls == [] then Str1("") else c)
  }

  function Sanitiser(env: Env): OpenAI -> seq<OpenAI> {
    (m: OpenAI) => [Sanitised(env, m)]
  }

  function SanitisedAll(env: Env, ms: seq<OpenAI>): seq<OpenAI> {
    FlatMap(Sanitiser(env), ms)
  }

  /** Parts are copied one by one. */
  method SanitizeContent(env: Env, c: Content) returns (clean: Content)
    ensures clean == CappedContent(env, c)
  {
    match c
    case Str1(s) => clean := Str1(env.truncate(s));
    case NoContent => clean := NoContent;
    case Parts(ps) =>
      var parts := [];
      for i := 0 to |ps|
        invariant parts == FlatMap(Capper(env), ps[..i])
      {
        assert ps[..i + 1] == ps[..i] + [ps[i]];
        FlatMapSnoc(Capper(env), ps[..i], ps[i]);
        var part := ps[i];
        if part.TextPart? {
          part := TextPart(env.truncate(part.s));
        }
        parts := parts + [part];
      }
      assert ps[..|ps|] == ps;
      clean := Parts(parts);
  }

  /** One message for one: everything but the content is kept; text is truncated; null content stays null
      only beside tool calls and is empty text elsewhere. */
  predicate IsSanitised(env: Env, m: OpenAI, clean: OpenAI) {
    && clean.(content := NoContent) == m.(content := NoContent)
    && match m.content
       case Str1(s) => clean.content == Str1(env.truncate(s))
       case NoContent => clean.content == if m.calls == [] then Str1("") else NoContent
       case Parts(ps) =>
         && clean.content.Parts? && |clean.content.parts| == |ps|
         && forall i :: 0 <= i < |ps| ==>
              clean.content.parts[i] == if ps[i].TextPart? then TextPart(env.truncate(ps[i].s)) else ps[i]
  }

  lemma {:induction false} CappedOneByOne(env: Env, ps: seq<Part>)
    ensures |FlatMap(Capper(env), ps)| == |ps|
    ensures forall i :: 0 <= i < |ps| ==>
              FlatMap(Capper(env), ps)[i] == if ps[i].TextPart? then TextPart(env.truncate(ps[i].s)) else ps[i]
  {
    if ps != [] { CappedOneByOne(env, Front(ps)); }
  }

  lemma SanitisedIs(env: Env, m: OpenAI)
    ensures IsSanitised(env, m, Sanitised(env, m))
  {
    if m.content.Parts? { CappedOneByOne(env, m.content.parts); }
  }

  method SanitizeMessages(env: Env, ms: seq<OpenAI>) returns (out: seq<OpenAI>)
    ensures out == SanitisedAll(env, ms)
    ensures |out| == |ms| && forall i :: 0 <= i < |ms| ==> IsSanitised(env, ms[i], out[i])
  {
    out := [];
    for i := 0 to |ms|
      invariant out == SanitisedAll(env, ms[..i])
      invariant |out| == i && forall k :: 0 <= k < i ==> IsSanitised(env, ms[k], out[k])
    {
      SanitisedIs(env, ms[i]);
      assert Front(ms[..i + 1]) == ms[..i];
      var content := SanitizeContent(env, ms[i].content);
      var clean := ms[i].(content := content);
      if clean.content == NoContent && clean.calls == [] {
        clean := clean.(content := Str1(""));
      }
      out := out + [clean];
    }
    assert ms[..|ms|] == ms;
  }

  // ── OpenAI to Ollama ─────────────────────────────────────────────────────────

  function StringOf(j: Json): string {
    if j.Str? then j.s else ""
  }

  function FlatImage(env: Env): Part -> seq<string> {
    (p: Part) => if p.ImagePart? && env.inlineImage(p.url).Some? then [env.inlineImage(p.url).value] else []
  }

  function FlatContent(env: Env, c: Content): (string, seq<string>) {
    match c
    case Str1(s) => (s, [])
    case Parts(ps) => (Join(FlatMap(FilledText, ps), "\n"), FlatMap(FlatImage(env), ps))
    case NoContent => ("", [])
  }

  /** One more part; `texts` are the non-empty texts so far. */
  method FlattenPart(env: Env, p: Part, text: string, images: seq<string>, ghost texts: seq<string>)
      returns (text': string, images': seq<string>)
    requires text == Join(texts, "\n") && (text == "" <==> texts == [])
    ensures text' == Join(texts + FilledText(p), "\n") && (text' == "" <==> texts + FilledText(p) == [])
    ensures images' == images + FlatImage(env)(p)
  {
    text', images' := text, images;
    match p
    case TextPart(s) =>
      JoinSnoc(texts, s, "\n");
      if s == "" { assert texts + [] == texts; }
      if |text'| > 0 && s != "" {
        text' := text' + "\n";
      }
      text' := text' + s;
    case ImagePart(url) =>
      assert texts + [] == texts;
      var data := env.inlineImage(url);
      if data.Some? {
        images' := images' + [data.value];
      }
  }

  /** The text is built up in place, with a newline before each non-empty text but the first. */
  method FlattenContent(env: Env, c: Content) returns (text: string, images: seq<string>)
    ensures (text, images) == FlatContent(env, c)
  {
    text, images := "", [];
    match c
    case Str1(s) => text := s;
    case NoContent =>
    case Parts(ps) =>
      ghost var texts: seq<string> := [];
      for i := 0 to |ps|
        invariant texts == FlatMap(FilledText, ps[..i]) && text == Join(texts, "\n") && (text == "" <==> texts == [])
        invariant images == FlatMap(FlatImage(env), ps[..i])
      {
        assert ps[..i + 1] == ps[..i] + [ps[i]];
        FlatMapSnoc(FilledText, ps[..i], ps[i]);
        FlatMapSnoc(FlatImage(env), ps[..i], ps[i]);
        text, images := FlattenPart(env, ps[i], text, images, texts);
        texts := texts + FilledText(ps[i]);
      }
      assert ps[..|ps|] == ps;
  }

  /** Arguments that are not valid JSON are passed on as the string they were. */
  function Decoded(env: Env, args: string): Json {
    match env.unmarshal(args)
    case Some(j) => j
    case None => Str(args)
  }

  function DecodedCall(env: Env, c: Call): OllamaCall {
    OllamaCall(StringOf(c.name), Decoded(env, c.args))
  }

  function DecodedCalls(env: Env, cs: seq<Call>): (out: seq<OllamaCall>)
    ensures |out| == |cs|
  {
    seq(|cs|, i requires 0 <= i < |cs| => DecodedCall(env, cs[i]))
  }

  type Names = map<string, string>

  function Named(names: Names, c: Call): Names {
    if StringOf(c.id) == "" then names else names[StringOf(c.id) := StringOf(c.name)]
  }

  function NamedAll(names: Names, cs: seq<Call>): Names {
    if cs == [] then names else Named(NamedAll(names, Front(cs)), Last(cs))
  }

  function Lookup(names: Names, id: string): string {
    if id in names then names[id] else ""
  }

  function ToOllama(env: Env, names: Names, m: OpenAI): Ollama {
    var (text, images) := FlatContent(env, m.content);
    var own := StringOf(m.name);
    Ollama(m.role, text, images, DecodedCalls(env, m.calls),
           if m.role != "tool" then "" else if own != "" then own
           else Lookup(NamedAll(names, m.calls), StringOf(m.callId)))
  }

  function OllamaStep(env: Env): (Names, OpenAI) -> (Names, seq<Ollama>) {
    (names: Names, m: OpenAI) => (NamedAll(names, m.calls), [ToOllama(env, names, m)])
  }

  function ToOllamaAll(env: Env, ms: seq<OpenAI>): seq<Ollama> {
    Transducer.Sent(OllamaStep(env), map[], ms)
  }

  /** Arguments that are not JSON are passed on as the string they are. */
  predicate IsDecoded(env: Env, c: Call, call: OllamaCall) {
    && call.name == StringOf(c.name)
    && match env.unmarshal(c.args)
       case Some(j) => call.args == j
       case None => call.args == Str(c.args)
  }

  method TranslateCall(env: Env, before: Names, c: Call) returns (names: Names, call: OllamaCall)
    ensures names == Named(before, c) && call == DecodedCall(env, c)
    ensures IsDecoded(env, c, call)
  {
    names := before;
    var name := StringOf(c.name);
    var id := StringOf(c.id);
    if id != "" {
      names := names[id := name];
    }
    call := OllamaCall(name, Decoded(env, c.args));
  }

  method TranslateCalls(env: Env, before: Names, cs: seq<Call>) returns (names: Names, calls: seq<OllamaCall>)
    ensures names == NamedAll(before, cs) && calls == DecodedCalls(env, cs)
  {
    names, calls := before, [];
    for k := 0 to |cs|
      invariant names == NamedAll(before, cs[..k])
      invariant |calls| == k && forall i :: 0 <= i < k ==> calls[i] == DecodedCall(env, cs[i])
    {
      assert Front(cs[..k + 1]) == cs[..k];
      var call;
      names, call := TranslateCall(env, names, cs[k]);
      calls := calls + [call];
    }
    assert cs[..|cs|] == cs;
  }

  /** One message: names are recorded before a result in the same message would look them up. */
  method TranslateMessage(env: Env, before: Names, m: OpenAI) returns (names: Names, om: Ollama)
    ensures names == NamedAll(before, m.calls) && om == ToOllama(env, before, m)
  {
    var text, images := FlattenContent(env, m.content);
    var calls;
    names, calls := TranslateCalls(env, before, m.calls);
    om := Ollama(m.role, text, images, calls, "");
    if m.role == "tool" {
      var name := StringOf(m.name);
      if name == "" {
        var id := StringOf(m.callId);
        name := if id in names then names[id] else "";
      }
      if name != "" {
        om := om.(toolName := name);
      }
    }
  }

  function CallsIn(m: OpenAI): seq<Call> {
    m.calls
  }

  /** The name of the latest call with this id, "" if there is none. */
  function LatestName(calls: seq<Call>, id: string): string {
    if calls == [] then ""
    else if StringOf(Last(calls).id) == id then StringOf(Last(calls).name)
    else LatestName(Front(calls), id)
  }

  lemma {:induction false} NamesAreLatest(names: Names, before: seq<Call>, calls: seq<Call>, id: string)
    requires id != "" && Lookup(names, id) == LatestName(before, id)
    ensures Lookup(NamedAll(names, calls), id) == LatestName(before + calls, id)
    decreases |calls|
  {
    if calls == [] {
      assert before + calls == before;
    } else {
      NamesAreLatest(names, before, Front(calls), id);
      assert Front(before + calls) == before + Front(calls) && Last(before + calls) == Last(calls);
    }
  }

  lemma {:induction false} NoEmptyName(names: Names, calls: seq<Call>)
    requires "" !in names
    ensures "" !in NamedAll(names, calls)
    decreases |calls|
  {
    if calls != [] { NoEmptyName(names, Front(calls)); }
  }

  lemma {:induction false} NamesAlong(env: Env, ms: seq<OpenAI>, id: string)
    ensures "" !in After(OllamaStep(env), map[], ms)
    ensures id != "" ==> Lookup(After(OllamaStep(env), map[], ms), id) == LatestName(FlatMap(CallsIn, ms), id)
    ensures |ToOllamaAll(env, ms)| == |ms|
    decreases |ms|
  {
    if ms != [] {
      var names := After(OllamaStep(env), map[], Front(ms));
      NamesAlong(env, Front(ms), id);
      NoEmptyName(names, Last(ms).calls);
      if id != "" { NamesAreLatest(names, FlatMap(CallsIn, Front(ms)), Last(ms).calls, id); }
    }
  }

  /** What message `m` becomes, `calls` being all calls up to and including its own: a tool result is named by
      its own name, else by the latest call with its id. */
  predicate IsTranslated(env: Env, m: OpenAI, calls: seq<Call>, om: Ollama) {
    && om.role == m.role && (om.content, om.images) == FlatContent(env, m.content)
    && |om.calls| == |m.calls|
    && (forall k :: 0 <= k < |m.calls| ==> IsDecoded(env, m.calls[k], om.calls[k]))
    && (m.role != "tool" ==> om.toolName == "")
    && (m.role == "tool" && StringOf(m.name) != "" ==> om.toolName == StringOf(m.name))
    && (m.role == "tool" && StringOf(m.name) == "" && StringOf(m.callId) == "" ==> om.toolName == "")
    && (m.role == "tool" && StringOf(m.name) == "" && StringOf(m.callId) != "" ==>
          om.toolName == LatestName(calls, StringOf(m.callId)))
  }

  lemma MessageIsTranslated(env: Env, before: seq<OpenAI>, m: OpenAI)
    ensures var names := After(OllamaStep(env), map[], before);
            IsTranslated(env, m, FlatMap(CallsIn, before + [m]), ToOllama(env, names, m))
  {
    var names, id := After(OllamaStep(env), map[], before), StringOf(m.callId);
    NamesAlong(env, before, id);
    NoEmptyName(names, m.calls);
    FlatMapSnoc(CallsIn, before, m);
    if id != "" { NamesAreLatest(names, FlatMap(CallsIn, before), m.calls, id); }
  }

  lemma TranslatedSnoc(env: Env, before: seq<OpenAI>, m: OpenAI)
    ensures ToOllamaAll(env, before + [m])
            == ToOllamaAll(env, before) + [ToOllama(env, After(OllamaStep(env), map[], before), m)]
  {
    Snoc(OllamaStep(env), map[], before, m);
  }

  /** Every message of every OpenAI history, whatever it came from. */
  lemma {:induction false} EachMessageIsTranslated(env: Env, ms: seq<OpenAI>, i: nat)
    requires i < |ms|
    ensures |ToOllamaAll(env, ms)| == |ms|
    ensures IsTranslated(env, ms[i], FlatMap(CallsIn, ms[..i + 1]), ToOllamaAll(env, ms)[i])
    decreases |ms|
  {
    var front, last := Front(ms), Last(ms);
    assert ms == front + [last];
    TranslatedSnoc(env, front, last);
    if i < |front| {
      EachMessageIsTranslated(env, front, i);
      assert ms[..i + 1] == front[..i + 1];
    } else {
      assert ms[..i + 1] == ms;
      if front != [] { EachMessageIsTranslated(env, front, 0); }
      MessageIsTranslated(env, front, last);
    }
  }

  method OllamaMessages(env: Env, ms: seq<OpenAI>) returns (out: seq<Ollama>)
    ensures out == ToOllamaAll(env, ms)
  {
    var names: Names := map[];
    out := [];
    ghost var step, none: Names, done: seq<OpenAI> := OllamaStep(env), map[], [];
    for i := 0 to |ms|
      invariant done == ms[..i]
      invariant names == After(step, none, done) && out == Transducer.Sent(step, none, done)
    {
      Snoc(step, none, done, ms[i]);
      var om;
      names, om := TranslateMessage(env, names, ms[i]);
      out := out + [om];
      done := done + [ms[i]];
    }
    assert done == ms;
  }

  function Pipeline(env: Env, turns: seq<Turn>): seq<Ollama> {
    ToOllamaAll(env, SanitisedAll(env, ExpandedAll(env, turns)))
  }

  /** The whole request path for an Ollama engine. */
  method MessagesForOllama(env: Env, system: ResultContent, turns: seq<Turn>) returns (out: seq<Ollama>)
    ensures out == Pipeline(env, WithSystem(system, turns))
    ensures Faithful(env) ==> SystemLeads(env, out, system, HistoryFor(env, turns))
  {
    var raw := AnthropicToOpenAI(env, system, turns);
    var clean := SanitizeMessages(env, raw);
    out := OllamaMessages(env, clean);
    if Faithful(env) {
      SystemLeadsHistory(env, system, turns);
    }
  }

  /** The system text leads, truncated, as a message of its own; the expected history follows. */
  predicate SystemLeads(env: Env, out: seq<Ollama>, system: ResultContent, rest: seq<Ollama>) {
    var text := match system
                case Plain(s) => s
                case Blocks(ts) => Join(FlatMap(Said1, ts), "\n\n");
    out == (if text == "" then [] else [Ollama("system", env.truncate(text), [], [], "")]) + rest
  }

  lemma SystemMessageOut(env: Env, m: OpenAI, rest: seq<OpenAI>)
    requires m.calls == [] && m.content.Str1? && m.role != "tool"
    ensures ToOllamaAll(env, SanitisedAll(env, [m] + rest))
         == [Ollama(m.role, env.truncate(m.content.s), [], [], "")] + ToOllamaAll(env, SanitisedAll(env, rest))
  {
    var none: Names := map[];
    var clean := Sanitised(env, m);
    FlatMapConcat(Sanitiser(env), [m], rest);
    FlatMapOne(Sanitiser(env), m);
    Concat(OllamaStep(env), none, [clean], SanitisedAll(env, rest));
    OneMessage(env, none, clean);
    assert DecodedCalls(env, []) == [];
  }

  /** A system message neither names nor changes anything after it. */
  lemma SystemLeadsHistory(env: Env, system: ResultContent, turns: seq<Turn>)
    requires Faithful(env)
    ensures SystemLeads(env, Pipeline(env, WithSystem(system, turns)), system, HistoryFor(env, turns))
  {
    HistoryIsTranslated(env, turns);
    SystemIsFirst(env, system, turns);
    if Spoken(system) == "" {
      assert [] + HistoryFor(env, turns) == HistoryFor(env, turns);
      assert [] + ExpandedAll(env, turns) == ExpandedAll(env, turns);
    } else {
      SystemMessageOut(env, OpenAI("system", Str1(Spoken(system)), [], Null, Null), ExpandedAll(env, turns));
    }
  }

  // ── What must come out, stated on the Anthropic history itself ───────────────

  datatype Use = Use(id: Json, name: Json, input: Json)

  function UseOf(b: Block): seq<Use> {
    if b.ToolUse? then [Use(b.id, b.name, b.input)] else []
  }

  function TurnUses(t: Turn): seq<Use> {
    if t.Sent? then FlatMap(UseOf, t.blocks) else []
  }

  /** Every tool_use of a history, in order. */
  function Uses(turns: seq<Turn>): seq<Use> {
    FlatMap(TurnUses, turns)
  }

  /** The name of the most recent use with this id. */
  function LastName(uses: seq<Use>, id: string): string {
    if uses == [] then "" else if Last(uses).id == Str(id) then StringOf(Last(uses).name) else LastName(Front(uses), id)
  }

  lemma {:induction false} LastNameIsMostRecent(uses: seq<Use>, id: string, j: nat)
    requires j < |uses| && uses[j].id == Str(id)
    requires forall k :: j < k < |uses| ==> uses[k].id != Str(id)
    ensures LastName(uses, id) == StringOf(uses[j].name)
    decreases |uses|
  {
    if j < |uses| - 1 {
      assert Front(uses)[j] == uses[j];
      LastNameIsMostRecent(Front(uses), id, j);
    }
  }

  function ResultFor(env: Env, prior: seq<Use>): Block -> seq<Ollama> {
    (b: Block) =>
      if b.ToolResult?
      then [Ollama("tool", env.truncate((if b.isError then "Error: " else "") + Spoken(b.content)), [], [],
                   if StringOf(b.useId) == "" then "" else LastName(prior, StringOf(b.useId)))]
      else []
  }

  /** A use reaches Ollama with the very object it had; a missing input is an empty object. */
  function CallFor(u: Use): OllamaCall {
    OllamaCall(StringOf(u.name), if u.input == Null then Obj(map[]) else u.input)
  }

  function CallsFor(uses: seq<Use>): (out: seq<OllamaCall>)
    ensures |out| == |uses|
  {
    seq(|uses|, i requires 0 <= i < |uses| => CallFor(uses[i]))
  }

  /** The non-empty texts of a turn. */
  function SaidIn(b: Block): seq<string> {
    if b.Text? && b.text != "" then [b.text] else []
  }

  /** The same after each has been truncated. */
  function SaidCapped(env: Env): Block -> seq<string> {
    (b: Block) => if b.Text? && env.truncate(b.text) != "" then [env.truncate(b.text)] else []
  }

  /** The inline images of a turn; a remote one is dropped. */
  function ShownIn(env: Env): Block -> seq<string> {
    (b: Block) =>
      if b.Image? && b.url != "" && env.inlineImage(b.url).Some? then [env.inlineImage(b.url).value] else []
  }

  predicate Speaks(bs: seq<Block>) {
    exists i :: 0 <= i < |bs| && bs[i].Text?
  }

  predicate Shows(bs: seq<Block>) {
    exists i :: 0 <= i < |bs| && bs[i].Image? && bs[i].url != ""
  }

  /** A turn with an image keeps its texts apart, each truncated, on lines of their own; without one they
      are joined by blank lines and truncated as a whole. */
  function TextFor(env: Env, bs: seq<Block>): string {
    if Shows(bs) then Join(FlatMap(SaidCapped(env), bs), "\n")
    else if Speaks(bs) then env.truncate(Join(FlatMap(SaidIn, bs), "\n\n"))
    else ""
  }

  function RestFor(env: Env, role: string, bs: seq<Block>): seq<Ollama> {
    var uses := FlatMap(UseOf, bs);
    if !Speaks(bs) && !Shows(bs) && uses == [] then []
    else [Ollama(role, TextFor(env, bs), FlatMap(ShownIn(env), bs), CallsFor(uses), "")]
  }

  /** A turn's results come first, in order, linked to the uses of earlier turns; the rest follows. */
  function TurnFor(env: Env, prior: seq<Use>, t: Turn): seq<Ollama> {
    match t
    case Said(role, s) => [Ollama(role, env.truncate(s), [], [], "")]
    case Sent(role, bs) => FlatMap(ResultFor(env, prior), bs) + RestFor(env, role, bs)
  }

  function HistoryFor(env: Env, turns: seq<Turn>): seq<Ollama> {
    if turns == [] then [] else HistoryFor(env, Front(turns)) + TurnFor(env, Uses(Front(turns)), Last(turns))
  }

  // ── The pipeline meets it ────────────────────────────────────────────────────

  /** The name table mirrors the uses seen so far. */
  ghost predicate Mirrors(names: Names, uses: seq<Use>) {
    && "" !in names
    && forall id :: id != "" ==> Lookup(names, id) == LastName(uses, id)
  }

  lemma MirrorsStep(env: Env, names: Names, uses: seq<Use>, u: Use)
    requires Mirrors(names, uses)
    ensures Mirrors(Named(names, Call(u.id, u.name, ArgumentsOf(env, u.input))), uses + [u])
  {
    assert Front(uses + [u]) == uses;
  }

  lemma {:induction false} CallsMirrorUses(env: Env, names: Names, uses: seq<Use>, bs: seq<Block>)
    requires Mirrors(names, uses)
    ensures Mirrors(NamedAll(names, FlatMap(CallOf(env), bs)), uses + FlatMap(UseOf, bs))
    decreases |bs|
  {
    if bs == [] {
      assert uses + [] == uses;
    } else {
      CallsMirrorUses(env, names, uses, Front(bs));
      var calls, more := FlatMap(CallOf(env), Front(bs)), FlatMap(UseOf, Front(bs));
      match Last(bs)
      case ToolUse(id, name, input) =>
        MirrorsStep(env, NamedAll(names, calls), uses + more, Use(id, name, input));
        assert Front(calls + [Call(id, name, ArgumentsOf(env, input))]) == calls;
        assert (uses + more) + [Use(id, name, input)] == uses + (more + [Use(id, name, input)]);
      case _ =>
        assert calls + [] == calls && more + [] == more;
    }
  }

  lemma {:induction false} CallsDecodeToUses(env: Env, bs: seq<Block>)
    requires Faithful(env)
    ensures DecodedCalls(env, FlatMap(CallOf(env), bs)) == CallsFor(FlatMap(UseOf, bs))
    decreases |bs|
  {
    if bs != [] {
      CallsDecodeToUses(env, Front(bs));
      var calls, uses := FlatMap(CallOf(env), Front(bs)), FlatMap(UseOf, Front(bs));
      match Last(bs)
      case ToolUse(id, name, input) =>
        var c, u := Call(id, name, ArgumentsOf(env, input)), Use(id, name, input);
        assert env.unmarshal(env.marshal(Obj(map[]))) == Some(Obj(map[]));
        assert DecodedCall(env, c) == CallFor(u);
        assert DecodedCalls(env, calls + [c]) == DecodedCalls(env, calls) + [DecodedCall(env, c)];
        assert CallsFor(uses + [u]) == CallsFor(uses) + [CallFor(u)];
      case _ =>
        assert calls + [] == calls && uses + [] == uses;
    }
  }

  lemma ResultMessageOut(env: Env, names: Names, prior: seq<Use>, b: Block)
    requires Mirrors(names, prior) && b.ToolResult?
    ensures ResultOf(b)[0].calls == []
    ensures [ToOllama(env, names, Sanitised(env, ResultOf(b)[0]))] == ResultFor(env, prior)(b)
  {
    assert DecodedCalls(env, []) == [];
  }

  /** Results neither change the table nor depend on each other. */
  lemma {:induction false} ResultsComeOut(env: Env, names: Names, prior: seq<Use>, bs: seq<Block>)
    requires Mirrors(names, prior)
    ensures After(OllamaStep(env), names, SanitisedAll(env, FlatMap(ResultOf, bs))) == names
    ensures Transducer.Sent(OllamaStep(env), names, SanitisedAll(env, FlatMap(ResultOf, bs)))
        == FlatMap(ResultFor(env, prior), bs)
    decreases |bs|
  {
    if bs != [] {
      var before, b := FlatMap(ResultOf, Front(bs)), Last(bs);
      ResultsComeOut(env, names, prior, Front(bs));
      if b.ToolResult? {
        ResultMessageOut(env, names, prior, b);
        FlatMapSnoc(Sanitiser(env), before, ResultOf(b)[0]);
        Snoc(OllamaStep(env), names, SanitisedAll(env, before), Sanitised(env, ResultOf(b)[0]));
      } else {
        assert before + [] == before;
        assert FlatMap(ResultFor(env, prior), Front(bs)) + [] == FlatMap(ResultFor(env, prior), Front(bs));
      }
    }
  }

  lemma OneMessage(env: Env, names: Names, m: OpenAI)
    ensures After(OllamaStep(env), names, [m]) == NamedAll(names, m.calls)
    ensures Transducer.Sent(OllamaStep(env), names, [m]) == [ToOllama(env, names, m)]
  {
    Snoc(OllamaStep(env), names, [], m);
    assert [] + [m] == [m];
  }

  lemma UsesAreCalls(env: Env, bs: seq<Block>)
    ensures |FlatMap(UseOf, bs)| == |FlatMap(CallOf(env), bs)|
  {
    if bs != [] { UsesAreCalls(env, Front(bs)); }
  }

  lemma {:induction false} PartsShowAndSpeak(bs: seq<Block>)
    ensures HasImage(FlatMap(PartOf, bs)) <==> Shows(bs)
    ensures FlatMap(PartOf, bs) != [] <==> Speaks(bs) || Shows(bs)
  {
    if bs != [] {
      var front, b := Front(bs), Last(bs);
      PartsShowAndSpeak(front);
      var parts := FlatMap(PartOf, front);
      assert bs == front + [b];
      SpeaksSnoc(front, b);
      if PartOf(b) == [] {
        assert parts + [] == parts;
      } else {
        assert PartOf(b) == [PartOf(b)[0]];
        HasImageSnoc(parts, PartOf(b)[0]);
      }
    }
  }

  lemma SpeaksSnoc(bs: seq<Block>, b: Block)
    ensures Speaks(bs + [b]) <==> Speaks(bs) || b.Text?
    ensures Shows(bs + [b]) <==> Shows(bs) || (b.Image? && b.url != "")
  {
    var all := bs + [b];
    assert all[|bs|] == b && forall i :: 0 <= i < |bs| ==> all[i] == bs[i];
    if Speaks(bs) {
      var i :| 0 <= i < |bs| && bs[i].Text?;
      assert all[i].Text?;
    }
    if Shows(bs) {
      var i :| 0 <= i < |bs| && bs[i].Image? && bs[i].url != "";
      assert all[i].Image? && all[i].url != "";
    }
  }

  lemma BlockText(b: Block)
    ensures FlatMap(FilledText, PartOf(b)) == SaidIn(b)
  {
    if PartOf(b) != [] { FlatMapOne(FilledText, PartOf(b)[0]); }
  }

  /** The part of a block after sanitising. */
  function CappedPartOf(env: Env): Block -> seq<Part> {
    (b: Block) => if PartOf(b) == [] then [] else [CappedPart(env, PartOf(b)[0])]
  }

  lemma BlockCapped(env: Env, b: Block)
    ensures FlatMap(Capper(env), PartOf(b)) == CappedPartOf(env)(b)
  {
    if PartOf(b) != [] { FlatMapOne(Capper(env), PartOf(b)[0]); }
  }

  lemma BlockCappedText(env: Env, b: Block)
    ensures FlatMap(FilledText, CappedPartOf(env)(b)) == SaidCapped(env)(b)
  {
    if PartOf(b) != [] { FlatMapOne(FilledText, CappedPart(env, PartOf(b)[0])); }
  }

  lemma BlockImage(env: Env, b: Block)
    ensures FlatMap(FlatImage(env), CappedPartOf(env)(b)) == ShownIn(env)(b)
  {
    if PartOf(b) != [] { FlatMapOne(FlatImage(env), CappedPart(env, PartOf(b)[0])); }
  }

  lemma TextsSurvive(bs: seq<Block>)
    ensures FlatMap(FilledText, FlatMap(PartOf, bs)) == FlatMap(SaidIn, bs)
  {
    forall b ensures FlatMap(FilledText, PartOf(b)) == SaidIn(b) { BlockText(b); }
    FlatMapCompose(PartOf, FilledText, SaidIn, bs);
  }

  lemma CappedSurvives(env: Env, bs: seq<Block>)
    ensures FlatMap(Capper(env), FlatMap(PartOf, bs)) == FlatMap(CappedPartOf(env), bs)
  {
    forall b ensures FlatMap(Capper(env), PartOf(b)) == CappedPartOf(env)(b) { BlockCapped(env, b); }
    FlatMapCompose(PartOf, Capper(env), CappedPartOf(env), bs);
  }

  lemma CappedTextsSurvive(env: Env, bs: seq<Block>)
    ensures FlatMap(FilledText, FlatMap(Capper(env), FlatMap(PartOf, bs))) == FlatMap(SaidCapped(env), bs)
  {
    CappedSurvives(env, bs);
    forall b ensures FlatMap(FilledText, CappedPartOf(env)(b)) == SaidCapped(env)(b) { BlockCappedText(env, b); }
    FlatMapCompose(CappedPartOf(env), FilledText, SaidCapped(env), bs);
  }

  lemma ImagesSurvive(env: Env, bs: seq<Block>)
    ensures FlatMap(FlatImage(env), FlatMap(Capper(env), FlatMap(PartOf, bs))) == FlatMap(ShownIn(env), bs)
  {
    CappedSurvives(env, bs);
    forall b ensures FlatMap(FlatImage(env), CappedPartOf(env)(b)) == ShownIn(env)(b) { BlockImage(env, b); }
    FlatMapCompose(CappedPartOf(env), FlatImage(env), ShownIn(env), bs);
  }

  lemma {:induction false} NothingShown(env: Env, bs: seq<Block>)
    requires !Shows(bs)
    ensures FlatMap(ShownIn(env), bs) == []
  {
    if bs != [] {
      assert bs == Front(bs) + [Last(bs)];
      SpeaksSnoc(Front(bs), Last(bs));
      NothingShown(env, Front(bs));
    }
  }

  /** The content of a turn's remaining message, after sanitising and flattening. */
  lemma ContentSurvives(env: Env, bs: seq<Block>)
    ensures FlatContent(env, CappedContent(env, TurnContent(FlatMap(PartOf, bs))))
        == (TextFor(env, bs), FlatMap(ShownIn(env), bs))
  {
    PartsShowAndSpeak(bs);
    TextsSurvive(bs);
    CappedTextsSurvive(env, bs);
    ImagesSurvive(env, bs);
    if !Shows(bs) { NothingShown(env, bs); }
  }

  lemma RestMessage(env: Env, names: Names, role: string, bs: seq<Block>)
    requires Faithful(env) && "" !in NamedAll(names, FlatMap(CallOf(env), bs))
    requires FlatMap(PartOf, bs) != [] || FlatMap(CallOf(env), bs) != []
    ensures var m := OpenAI(role, TurnContent(FlatMap(PartOf, bs)), FlatMap(CallOf(env), bs), Null, Null);
            [ToOllama(env, names, Sanitised(env, m))] == RestFor(env, role, bs)
  {
    UsesAreCalls(env, bs);
    CallsDecodeToUses(env, bs);
    ContentSurvives(env, bs);
    PartsShowAndSpeak(bs);
  }

  lemma RestComesOut(env: Env, names: Names, prior: seq<Use>, role: string, bs: seq<Block>)
    requires Faithful(env) && Mirrors(names, prior)
    ensures var rest := SanitisedAll(env, Remainder(role, FlatMap(PartOf, bs), FlatMap(CallOf(env), bs)));
            && After(OllamaStep(env), names, rest) == NamedAll(names, FlatMap(CallOf(env), bs))
            && Transducer.Sent(OllamaStep(env), names, rest) == RestFor(env, role, bs)
  {
    var parts, calls := FlatMap(PartOf, bs), FlatMap(CallOf(env), bs);
    if parts != [] || calls != [] {
      var m := OpenAI(role, TurnContent(parts), calls, Null, Null);
      CallsMirrorUses(env, names, prior, bs);
      RestMessage(env, names, role, bs);
      FlatMapOne(Sanitiser(env), m);
      OneMessage(env, names, Sanitised(env, m));
    } else {
      UsesAreCalls(env, bs);
      PartsShowAndSpeak(bs);
    }
  }

  /** What a turn sends to Ollama, and the names it leaves, are those of its description. */
  ghost predicate ComesOut(env: Env, names: Names, prior: seq<Use>, t: Turn) {
    var step, sent := OllamaStep(env), SanitisedAll(env, Expanded(env, t));
    && Transducer.Sent(step, names, sent) == TurnFor(env, prior, t)
    && Mirrors(After(step, names, sent), prior + TurnUses(t))
  }

  lemma SaidComesOut(env: Env, names: Names, prior: seq<Use>, role: string, s: string)
    requires Mirrors(names, prior)
    ensures ComesOut(env, names, prior, Said(role, s))
  {
    var m := OpenAI(role, Str1(s), [], Null, Null);
    FlatMapOne(Sanitiser(env), m);
    OneMessage(env, names, Sanitised(env, m));
    assert DecodedCalls(env, []) == [] && prior + [] == prior;
  }

  lemma SentComesOut(env: Env, names: Names, prior: seq<Use>, role: string, bs: seq<Block>)
    requires Faithful(env) && Mirrors(names, prior)
    ensures ComesOut(env, names, prior, Sent(role, bs))
  {
    var rest := Remainder(role, FlatMap(PartOf, bs), FlatMap(CallOf(env), bs));
    ResultsComeOut(env, names, prior, bs);
    RestComesOut(env, names, prior, role, bs);
    CallsMirrorUses(env, names, prior, bs);
    FlatMapConcat(Sanitiser(env), FlatMap(ResultOf, bs), rest);
    Concat(OllamaStep(env), names, SanitisedAll(env, FlatMap(ResultOf, bs)), SanitisedAll(env, rest));
  }

  lemma TurnComesOut(env: Env, names: Names, prior: seq<Use>, t: Turn)
    requires Faithful(env) && Mirrors(names, prior)
    ensures ComesOut(env, names, prior, t)
  {
    match t
    case Said(role, s) => SaidComesOut(env, names, prior, role, s);
    case Sent(role, bs) => SentComesOut(env, names, prior, role, bs);
  }

  lemma {:induction false} RunComesOut(env: Env, turns: seq<Turn>)
    requires Faithful(env)
    ensures Pipeline(env, turns) == HistoryFor(env, turns)
    ensures Mirrors(After(OllamaStep(env), map[], SanitisedAll(env, ExpandedAll(env, turns))), Uses(turns))
    decreases |turns|
  {
    if turns != [] {
      var before, t := Front(turns), Last(turns);
      RunComesOut(env, before);
      var done := SanitisedAll(env, ExpandedAll(env, before));
      FlatMapConcat(Sanitiser(env), ExpandedAll(env, before), Expanded(env, t));
      Concat(OllamaStep(env), map[], done, SanitisedAll(env, Expanded(env, t)));
      TurnComesOut(env, After(OllamaStep(env), map[], done), Uses(before), t);
    }
  }

  // ── Main results ─────────────────────────────────────────────────────────────

  /** For every history: what reaches Ollama is the expected history, in which every result is linked to
      the most recent earlier use of its id and every call carries the object it was made with. */
  lemma HistoryIsTranslated(env: Env, turns: seq<Turn>)
    requires Faithful(env)
    ensures Pipeline(env, turns) == HistoryFor(env, turns)
  {
    RunComesOut(env, turns);
  }

  /** Later turns only append. */
  lemma {:induction false} HistoryPrefix(env: Env, a: seq<Turn>, b: seq<Turn>)
    ensures HistoryFor(env, a) <= HistoryFor(env, a + b)
    decreases |b|
  {
    if b == [] {
      assert a + b == a;
    } else {
      HistoryPrefix(env, a, Front(b));
      assert Front(a + b) == a + Front(b);
    }
  }

  lemma HistorySnoc(env: Env, a: seq<Turn>, t: Turn)
    ensures HistoryFor(env, a + [t]) == HistoryFor(env, a) + TurnFor(env, Uses(a), t)
  {
    assert Front(a + [t]) == a;
  }

  function ResultsBefore(bs: seq<Block>, i: nat): nat
    requires i <= |bs|
  {
    if i == 0 then 0 else ResultsBefore(bs, i - 1) + (if bs[i - 1].ToolResult? then 1 else 0)
  }

  lemma {:induction false} ResultAt(env: Env, prior: seq<Use>, bs: seq<Block>, i: nat, n: nat)
    requires i < n <= |bs| && bs[i].ToolResult?
    ensures |FlatMap(ResultFor(env, prior), bs[..n])| == ResultsBefore(bs, n)
    ensures ResultsBefore(bs, i) < ResultsBefore(bs, n)
    ensures FlatMap(ResultFor(env, prior), bs[..n])[ResultsBefore(bs, i)] == ResultFor(env, prior)(bs[i])[0]
    decreases n
  {
    var f := ResultFor(env, prior);
    var front := FlatMap(f, bs[..n - 1]);
    assert bs[..n] == bs[..n - 1] + [bs[n - 1]];
    FlatMapSnoc(f, bs[..n - 1], bs[n - 1]);
    CountResults(env, prior, bs, n - 1);
    CountResults(env, prior, bs, n);
    if i < n - 1 {
      ResultAt(env, prior, bs, i, n - 1);
      assert (front + f(bs[n - 1]))[ResultsBefore(bs, i)] == front[ResultsBefore(bs, i)];
    } else {
      assert (front + f(bs[i]))[|front|] == f(bs[i])[0];
    }
  }

  lemma {:induction false} CountResults(env: Env, prior: seq<Use>, bs: seq<Block>, n: nat)
    requires n <= |bs|
    ensures |FlatMap(ResultFor(env, prior), bs[..n])| == ResultsBefore(bs, n)
    decreases n
  {
    if n > 0 {
      assert bs[..n] == bs[..n - 1] + [bs[n - 1]];
      FlatMapSnoc(ResultFor(env, prior), bs[..n - 1], bs[n - 1]);
      CountResults(env, prior, bs, n - 1);
    }
  }

  /** `j` is the most recent use of `id` among the uses. */
  ghost predicate IsLatest(uses: seq<Use>, id: string, j: nat) {
    && j < |uses| && uses[j].id == Str(id)
    && forall later :: j < later < |uses| ==> uses[later].id != Str(id)
  }

  /** A name is found exactly when the latest use of the id has a non-empty one. */
  lemma {:induction false} NamedExactlyWhen(uses: seq<Use>, id: string)
    ensures LastName(uses, id) != "" <==> exists j: nat :: IsLatest(uses, id, j) && StringOf(uses[j].name) != ""
    decreases |uses|
  {
    if uses != [] {
      var front := Front(uses);
      assert forall k :: 0 <= k < |front| ==> uses[k] == front[k];
      if Last(uses).id == Str(id) {
        assert IsLatest(uses, id, |uses| - 1);
        forall j: nat | IsLatest(uses, id, j) ensures j == |uses| - 1 { }
      } else {
        NamedExactlyWhen(front, id);
        forall j: nat ensures IsLatest(uses, id, j) <==> IsLatest(front, id, j) { LatestOfFront(uses, id, j); }
      }
    }
  }

  lemma LatestOfFront(uses: seq<Use>, id: string, j: nat)
    requires uses != [] && Last(uses).id != Str(id)
    ensures IsLatest(uses, id, j) <==> IsLatest(Front(uses), id, j)
  {
    var front := Front(uses);
    assert forall k :: 0 <= k < |front| ==> uses[k] == front[k];
    if IsLatest(uses, id, j) {
      assert j < |front| && front[j].id == Str(id);
      forall later | j < later < |front| ensures front[later].id != Str(id) { assert uses[later] == front[later]; }
    }
    if IsLatest(front, id, j) {
      forall later | j < later < |uses| ensures uses[later].id != Str(id) {
        if later < |front| { assert front[later] == uses[later]; }
      }
    }
  }

  /** What a result block becomes, given the uses of the earlier turns. */
  ghost predicate IsResult(env: Env, prior: seq<Use>, b: Block, m: Ollama)
    requires b.ToolResult?
  {
    var id := StringOf(b.useId);
    && m.role == "tool" && m.images == [] && m.calls == []
    && m.content == env.truncate((if b.isError then "Error: " else "") + Spoken(b.content))
    && (forall j: nat :: id != "" && IsLatest(prior, id, j) ==> m.toolName == StringOf(prior[j].name))
    && (m.toolName != "" <==> id != "" && exists j: nat :: IsLatest(prior, id, j) && StringOf(prior[j].name) != "")
  }

  lemma ResultInTurn(env: Env, prior: seq<Use>, role: string, bs: seq<Block>, i: nat)
    requires i < |bs| && bs[i].ToolResult?
    ensures var mine := TurnFor(env, prior, Sent(role, bs));
            && ResultsBefore(bs, i) < |mine|
            && IsResult(env, prior, bs[i], mine[ResultsBefore(bs, i)])
  {
    var id := StringOf(bs[i].useId);
    forall j: nat | IsLatest(prior, id, j) ensures LastName(prior, id) == StringOf(prior[j].name) {
      LastNameIsMostRecent(prior, id, j);
    }
    NamedExactlyWhen(prior, id);
    ResultAt(env, prior, bs, i, |bs|);
    assert bs[..|bs|] == bs;
  }

  lemma PrefixSplit<T>(before: seq<T>, mine: seq<T>, out: seq<T>, n: nat) returns (a: seq<T>, b: seq<T>)
    requires before + mine <= out && n < |mine|
    ensures out == a + [mine[n]] + b && |a| == |before| + n
  {
    assert (before + mine)[|before| + n] == mine[n];
    a, b := out[..|before| + n], out[|before| + n + 1..];
  }

  /** What a turn produces stands in the output right after what the earlier turns produce. */
  lemma TurnStandsAfterEarlier(env: Env, earlier: seq<Turn>, t: Turn, later: seq<Turn>,
                               sofar: seq<Ollama>, out: seq<Ollama>)
    requires Faithful(env)
    requires sofar == Pipeline(env, earlier) && out == Pipeline(env, earlier + [t] + later)
    ensures sofar + TurnFor(env, Uses(earlier), t) <= out
  {
    HistoryIsTranslated(env, earlier);
    HistoryIsTranslated(env, earlier + [t] + later);
    HistoryPrefix(env, earlier + [t], later);
    HistorySnoc(env, earlier, t);
  }

  /** Every tool_result of every history arrives as one "tool" message, right after what the earlier turns
      alone produce (`sofar`) and the turn's preceding results, with its whole text truncated. It is named
      after the most recent use of its id in an earlier turn, and has a name if and only if there is such a
      use and that use has a name. */
  lemma ResultReachesItsCall(env: Env, earlier: seq<Turn>, role: string, bs: seq<Block>, later: seq<Turn>,
                             i: nat, sofar: seq<Ollama>, out: seq<Ollama>)
    returns (a: seq<Ollama>, m: Ollama, b: seq<Ollama>)
    requires Faithful(env)
    requires i < |bs| && bs[i].ToolResult?
    requires sofar == Pipeline(env, earlier) && out == Pipeline(env, earlier + [Sent(role, bs)] + later)
    ensures out == a + [m] + b && |a| == |sofar| + ResultsBefore(bs, i)
    ensures IsResult(env, Uses(earlier), bs[i], m)
  {
    var mine := TurnFor(env, Uses(earlier), Sent(role, bs));
    TurnStandsAfterEarlier(env, earlier, Sent(role, bs), later, sofar, out);
    ResultInTurn(env, Uses(earlier), role, bs, i);
    a, b := PrefixSplit(sofar, mine, out, ResultsBefore(bs, i));
    m := mine[ResultsBefore(bs, i)];
  }

  /** Only earlier turns count: a result whose id is issued for the first time by the same turn arrives
      without a name, because a turn's results are sent ahead of its calls. */
  lemma SameTurnIsTooLate(env: Env, role: string, id: string, name: string, input: Json)
    requires Faithful(env) && id != "" && name != ""
    ensures var out := Pipeline(env, [Sent(role,
              [ToolUse(Str(id), Str(name), input), ToolResult(Str(id), Plain(""), false)])]);
            |out| == 2 && out[0].role == "tool" && out[0].toolName == ""
            && |out[1].calls| == 1 && out[1].calls[0].name == name
  {
    var use, result := ToolUse(Str(id), Str(name), input), ToolResult(Str(id), Plain(""), false);
    var t := Sent(role, [use, result]);
    HistoryIsTranslated(env, [t]);
    HistorySnoc(env, [], t);
    assert [] + [t] == [t];
    SameTurnResult(env, use, result);
    SameTurnRest(env, role, use, result);
  }

  lemma SameTurnResult(env: Env, use: Block, result: Block)
    requires use.ToolUse? && result.ToolResult?
    ensures FlatMap(ResultFor(env, []), [use, result]) == [ResultFor(env, [])(result)[0]]
    ensures ResultFor(env, [])(result)[0].toolName == "" && ResultFor(env, [])(result)[0].role == "tool"
  {
    FlatMapTwo(ResultFor(env, []), use, result);
    assert ResultFor(env, [])(use) == [];
  }

  lemma OneUse(use: Block, result: Block)
    requires use.ToolUse? && result.ToolResult?
    ensures FlatMap(UseOf, [use, result]) == [Use(use.id, use.name, use.input)]
  {
    FlatMapTwo(UseOf, use, result);
  }

  lemma SameTurnRest(env: Env, role: string, use: Block, result: Block)
    requires use.ToolUse? && result.ToolResult?
    ensures |RestFor(env, role, [use, result])| == 1
    ensures RestFor(env, role, [use, result])[0].calls == [CallFor(Use(use.id, use.name, use.input))]
  {
    OneUse(use, result);
    assert CallsFor([Use(use.id, use.name, use.input)]) == [CallFor(Use(use.id, use.name, use.input))];
  }
}
