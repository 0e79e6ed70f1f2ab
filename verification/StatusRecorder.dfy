/**
 One response seen by three observers: the metrics, the request log and the client. They share one
 recorder around the server's response writer; a handler is a list of what it does to the response.
*/
module StatusRecorder {
  import opened Prelude

  type Code = c: int | 100 <= c < 1000 witness 200

  datatype Piece = Data(text: string) | ErrorBody | ErrorFrame | DoneFrame

  /** What a handler does. CopyFrom is io.Copy into the response; a copy of nothing writes nothing. */
  datatype Op =
    | Header(code: Code)
    | Body(text: string)
    | CopyFrom(text: string)
    | SetEventStream(on: bool)
    | Flush
    | Panic

  /** `status` and `wrote` are the recorder's; `sent` is the status on the wire once it is committed, `body`
      what has been written to it; `eventStream` is the Content-Type in the header map. */
  datatype State = State(status: int, wrote: bool, sent: Option<int>, body: seq<Piece>, eventStream: bool)

  const START := State(200, false, None, [], false)

  /** Sent ahead of the final header without committing it. */
  predicate Informational(code: int) {
    100 <= code < 200 && code != 101
  }

  function Sent(sent: Option<int>, code: int): Option<int> {
    if sent.Some? || Informational(code) then sent else Some(code)
  }

  function Headed(s: State, code: Code): State {
    s.(status := if s.wrote then s.status else code, wrote := true, sent := Sent(s.sent, code))
  }

  function Written(s: State, p: Piece): State {
    s.(wrote := true, sent := Sent(s.sent, 200), body := s.body + [p])
  }

  function Flushed(s: State): State {
    s.(sent := Sent(s.sent, 200))
  }

  function Performed(s: State, op: Op): State {
    match op
    case Header(code) => Headed(s, code)
    case Body(text) => Written(s, Data(text))
    case CopyFrom(text) => if text == "" then s.(wrote := true) else Written(s, Data(text))
    case SetEventStream(on) => s.(eventStream := on)
    case Flush => Flushed(s)
    case Panic => s
  }

  // ── The server's writer and the recorder around it ───────────────────────────

  class Writer {
    var sent: Option<int>
    var body: seq<Piece>
    var eventStream: bool

    constructor ()
      ensures sent == None && body == [] && !eventStream
    {
      sent, body, eventStream := None, [], false;
    }

    method WriteHeader(code: Code)
      modifies this`sent
      ensures sent == if old(sent) == None && (code >= 200 || code == 101) then Some(code) else old(sent)
    {
      if sent.None? && !Informational(code) {
        sent := Some(code);
      }
    }

    method Write(p: Piece)
      modifies this`sent, this`body
      ensures sent == Sent(old(sent), 200) && body == old(body) + [p]
    {
      WriteHeader(200);
      body := body + [p];
    }
  }

  class Recorder {
    const under: Writer
    var status: int
    var wrote: bool

    function View(): State
      reads this, under
    {
      State(status, wrote, under.sent, under.body, under.eventStream)
    }

    constructor (w: Writer)
      ensures under == w && status == 200 && !wrote
    {
      under, status, wrote := w, 200, false;
    }

    method WriteHeader(code: Code)
      modifies this, under
      ensures View() == Headed(old(View()), code)
    {
      if !wrote {
        status := code;
        wrote := true;
      }
      under.WriteHeader(code);
    }

    method Write(p: Piece)
      modifies this, under
      ensures View() == Written(old(View()), p)
    {
      wrote := true;
      under.Write(p);
    }

    method FlushOut()
      modifies under
      ensures View() == Flushed(old(View()))
    {
      under.WriteHeader(200);
    }

    method ReadFrom(text: string)
      modifies this, under
      ensures View() == Performed(old(View()), CopyFrom(text))
    {
      if text != "" {
        under.Write(Data(text));
      }
      wrote := true;
    }

    /** A handler, up to its end or its first panic. */
    method Run(ops: seq<Op>) returns (panicked: bool)
      modifies this, under
      ensures (View(), panicked) == Ran(old(View()), ops)
    {
      for i := 0 to |ops|
        invariant Ran(old(View()), ops) == Ran(View(), ops[i..])
      {
        match ops[i] {
          case Header(code) => WriteHeader(code);
          case Body(text) => Write(Data(text));
          case CopyFrom(text) => ReadFrom(text);
          case SetEventStream(on) => under.eventStream := on;
          case Flush => FlushOut();
          case Panic => return true;
        }
      }
      return false;
    }
  }

  function Ran(s: State, ops: seq<Op>): (State, bool)
    decreases |ops|
  {
    if ops == [] then (s, false)
    else if ops[0].Panic? then (s, true)
    else Ran(Performed(s, ops[0]), ops[1..])
  }

  // ── The middleware chain ─────────────────────────────────────────────────────

  /** `outer` is what the layers above the request log do (a refusal, say) and `reaches` whether they then
      pass the request on; `escapes` says that reporting a recovered panic panics in turn. */
  datatype Request = Request(v1: bool, outer: seq<Op>, reaches: bool, inner: seq<Op>, escapes: bool)

  function PanicStatus(s: State): int {
    if s.wrote then s.status else 500
  }

  function PanicReported(s: State): State {
    if !s.wrote then Written(Headed(s, 500), ErrorBody)
    else if s.eventStream then Flushed(Written(Written(s, ErrorFrame), DoneFrame))
    else s
  }

  /** Everything done to the response below the recovery layer. */
  function Trace(r: Request): seq<Op> {
    if Ran(START, r.outer).1 || !r.reaches then r.outer else r.outer + r.inner
  }

  predicate Logged(r: Request) {
    r.v1 && !Ran(START, r.outer).1 && r.reaches
  }

  /** The response when the recovery layer is done with it. */
  function Final(r: Request): State {
    var (s, panicked) := Ran(START, Trace(r));
    if panicked && !r.escapes then PanicReported(s) else s
  }

  function MetricStatus(r: Request): int {
    if Ran(START, Trace(r)).1 && r.escapes then PanicStatus(Final(r)) else Final(r).status
  }

  function AuditStatus(r: Request): int {
    var (s, panicked) := Ran(START, Trace(r));
    if panicked then PanicStatus(s) else s.status
  }

  class Gateway {
    var inFlight: int
    var metrics: seq<int>
    var rows: seq<int>

    constructor ()
      ensures inFlight == 0 && metrics == [] && rows == []
    {
      inFlight, metrics, rows := 0, [], [];
    }

    /** requestLoggingMiddleware around the handler. */
    method LogRequest(r: Request, rec: Recorder) returns (panicked: bool)
      modifies this`rows, rec, rec.under
      ensures (rec.View(), panicked) == Ran(old(rec.View()), r.inner)
      ensures rows == old(rows) + if r.v1 then [if panicked then PanicStatus(rec.View()) else rec.status] else []
    {
      panicked := rec.Run(r.inner);
      if r.v1 {
        var status := rec.status;
        if panicked {
          status := PanicStatus(rec.View());
        }
        rows := rows + [status];
      }
    }

    method WritePanicResponse(rec: Recorder)
      modifies rec, rec.under
      ensures rec.View() == PanicReported(old(rec.View()))
    {
      if !rec.wrote {
        rec.WriteHeader(500);
        rec.Write(ErrorBody);
      } else if rec.under.eventStream {
        rec.Write(ErrorFrame);
        rec.Write(DoneFrame);
        rec.FlushOut();
      }
    }

    /** recoveryMiddleware around everything else. */
    method Recover(r: Request, rec: Recorder) returns (escaped: bool)
      requires rec.View() == START
      modifies this`rows, rec, rec.under
      ensures rec.View() == Final(r) && escaped == (Ran(START, Trace(r)).1 && r.escapes)
      ensures rows == old(rows) + if Logged(r) then [AuditStatus(r)] else []
    {
      var panicked := rec.Run(r.outer);
      if !panicked && r.reaches {
        RanConcat(START, r.outer, r.inner);
        panicked := LogRequest(r, rec);
      }
      escaped := panicked && r.escapes;
      if panicked && !escaped {
        WritePanicResponse(rec);
      }
    }

    /** metricsMiddleware, outermost. */
    method Serve(r: Request) returns (rec: Recorder)
      modifies this
      ensures inFlight == old(inFlight)
      ensures rec.View() == Final(r)
      ensures metrics == old(metrics) + [MetricStatus(r)]
      ensures rows == old(rows) + if Logged(r) then [AuditStatus(r)] else []
    {
      inFlight := inFlight + 1;
      var w := new Writer();
      rec := new Recorder(w);
      var escaped := Recover(r, rec);
      inFlight := inFlight - 1;
      var status := rec.status;
      if escaped {
        status := PanicStatus(rec.View());
      }
      metrics := metrics + [status];
    }
  }

  lemma {:induction false} RanConcat(s: State, a: seq<Op>, b: seq<Op>)
    ensures Ran(s, a + b) == if Ran(s, a).1 then Ran(s, a) else Ran(Ran(s, a).0, b)
    decreases |a|
  {
    if a == [] {
      assert a + b == b;
    } else {
      assert (a + b)[0] == a[0] && (a + b)[1..] == a[1..] + b;
      if !a[0].Panic? { RanConcat(Performed(s, a[0]), a[1..], b); }
    }
  }

  // ── The three observers ──────────────────────────────────────────────────────

  /** What the client is told: the server supplies 200 for a response nobody committed. */
  function WireStatus(s: State): int {
    if s.sent.Some? then s.sent.value else 200
  }

  /** The metrics and the request log never disagree, whatever the handler does. */
  lemma MetricIsAudit(r: Request)
    ensures MetricStatus(r) == AuditStatus(r)
  {
  }

  /** Whether a handler keeps recorder and wire together, read off its operations. The first commit decides.
      A flush before it commits a 200 that the recorder does not see, so only a 200 or no panic may follow; an
      informational header is recorded as if final; an empty copy is recorded but commits nothing. */
  datatype Scan = Open | WireOnly | RecorderOnly

  predicate Honest(q: Scan, ops: seq<Op>)
    decreases |ops|
  {
    if ops == [] then true
    else
      var op := ops[0];
      match q
      case Open =>
        (match op
         case Header(code) => !Informational(code)
         case Body(_) => true
         case CopyFrom(text) => text != "" || Honest(RecorderOnly, ops[1..])
         case SetEventStream(_) => Honest(Open, ops[1..])
         case Flush => Honest(WireOnly, ops[1..])
         case Panic => true)
      case WireOnly =>
        (match op
         case Header(code) => code == 200
         case Body(_) => true
         case CopyFrom(_) => true
         case SetEventStream(_) => Honest(WireOnly, ops[1..])
         case Flush => Honest(WireOnly, ops[1..])
         case Panic => false)
      case RecorderOnly =>
        (match op
         case Header(code) => if Informational(code) then Honest(RecorderOnly, ops[1..]) else code == 200
         case Body(_) => true
         case CopyFrom(text) => text != "" || Honest(RecorderOnly, ops[1..])
         case SetEventStream(_) => Honest(RecorderOnly, ops[1..])
         case Flush => true
         case Panic => true)
  }

  predicate At(q: Scan, s: State) {
    && s.status == 200
    && match q
       case Open => !s.wrote && s.sent.None?
       case WireOnly => !s.wrote && s.sent == Some(200)
       case RecorderOnly => s.wrote && s.sent.None?
  }

  /** The response after the recovery layer, from a state in the middle of a handler. */
  function Finish(s: State, ops: seq<Op>): State {
    var (t, panicked) := Ran(s, ops);
    if panicked then PanicReported(t) else t
  }

  /** Once both are committed, nothing moves either status. */
  lemma {:induction false} CommittedStays(s: State, ops: seq<Op>)
    requires s.wrote && s.sent.Some?
    ensures Finish(s, ops).status == s.status && Finish(s, ops).sent == s.sent
    decreases |ops|
  {
    if ops != [] && !ops[0].Panic? { CommittedStays(Performed(s, ops[0]), ops[1..]); }
  }

  lemma {:induction false} HonestDecides(q: Scan, s: State, ops: seq<Op>)
    requires At(q, s)
    ensures Finish(s, ops).status == WireStatus(Finish(s, ops)) <==> Honest(q, ops)
    decreases |ops|
  {
    if ops != [] && !ops[0].Panic? {
      var t := Performed(s, ops[0]);
      if t.wrote && t.sent.Some? {
        CommittedStays(t, ops[1..]);
      } else if t.wrote && t.status != 200 {
        MiscountedStays(t, ops[1..]);
      } else {
        var next := if t.wrote then RecorderOnly else if t.sent.Some? then WireOnly else Open;
        HonestDecides(next, t, ops[1..]);
      }
    }
  }

  /** An informational status that was recorded as final is never on the wire. */
  lemma {:induction false} MiscountedStays(s: State, ops: seq<Op>)
    requires s.wrote && Informational(s.status) && (s.sent.Some? ==> !Informational(s.sent.value))
    ensures Finish(s, ops).status == s.status && WireStatus(Finish(s, ops)) != s.status
    decreases |ops|
  {
    if ops != [] && !ops[0].Panic? { MiscountedStays(Performed(s, ops[0]), ops[1..]); }
  }

  /** All three agree on a request that was answered exactly when its operations are honest. */
  lemma ObserversAgreeExactlyWhenHonest(r: Request)
    requires !r.escapes
    ensures MetricStatus(r) == AuditStatus(r)
    ensures MetricStatus(r) == WireStatus(Final(r)) <==> Honest(Open, Trace(r))
  {
    HonestDecides(Open, START, Trace(r));
  }

  /** In particular for handlers that send no informational status, copy nothing empty and do not flush
      before their first write. */
  predicate Plain(ops: seq<Op>) {
    && (forall i :: 0 <= i < |ops| ==> (ops[i].Header? ==> !Informational(ops[i].code)) && ops[i] != CopyFrom(""))
    && (forall i :: 0 <= i < |ops| && ops[i].Flush? ==> CommitsIn(ops[..i]))
  }

  predicate CommitsIn(ops: seq<Op>) {
    exists i :: 0 <= i < |ops| && (ops[i].Header? || ops[i].Body? || ops[i].CopyFrom?)
  }

  lemma {:induction false} PlainIsHonest(ops: seq<Op>)
    requires Plain(ops)
    ensures Honest(Open, ops)
  {
    if ops != [] && ops[0].SetEventStream? {
      forall i | 0 <= i < |ops[1..]| && ops[1..][i].Flush? ensures CommitsIn(ops[1..][..i]) {
        assert ops[i + 1] == ops[1..][i];
        var k :| 0 <= k < |ops[..i + 1]|
                 && (ops[..i + 1][k].Header? || ops[..i + 1][k].Body? || ops[..i + 1][k].CopyFrom?);
        assert ops[1..][..i][k - 1] == ops[..i + 1][k];
      }
      PlainIsHonest(ops[1..]);
    }
  }

  function BodyOf(ops: seq<Op>): seq<Piece> {
    if ops == [] || ops[0].Panic? then []
    else (if ops[0].Body? || (ops[0].CopyFrom? && ops[0].text != "") then [Data(ops[0].text)] else [])
         + BodyOf(ops[1..])
  }

  lemma {:induction false} BodyIsWritten(s: State, ops: seq<Op>)
    ensures Ran(s, ops).0.body == s.body + BodyOf(ops)
    decreases |ops|
  {
    if ops != [] && !ops[0].Panic? {
      BodyIsWritten(Performed(s, ops[0]), ops[1..]);
    }
  }

  /** The body is the handler's own, and a panic adds to it only where nothing was committed, or where the
      response is an event stream, which gets an error frame and its terminator. */
  lemma CommittedBodyIsLeftAlone(r: Request)
    ensures var (s, panicked) := Ran(START, Trace(r));
            Final(r).body == BodyOf(Trace(r)) +
              if !panicked || r.escapes then []
              else if !s.wrote then [ErrorBody]
              else if s.eventStream then [ErrorFrame, DoneFrame]
              else []
  {
    BodyIsWritten(START, Trace(r));
  }

  /** A panic before anything was written is a 500 to all three, with an error body. */
  lemma EarlyPanicIs500(r: Request)
    requires !r.escapes && Ran(START, Trace(r)).1 && !Ran(START, Trace(r)).0.wrote && Ran(START, Trace(r)).0.sent.None?
    ensures MetricStatus(r) == 500 && AuditStatus(r) == 500 && Final(r).sent == Some(500)
    ensures Final(r).body == Ran(START, Trace(r)).0.body + [ErrorBody]
  {
  }

  /** A request that the outer layers let through runs its handler and, under /v1/, leaves one row; one that
      they refuse or panic on does neither. */
  lemma OnlyRequestsLetThroughAreLogged(r: Request)
    ensures var (s, panicked) := Ran(START, r.outer);
            && (panicked || !r.reaches ==> Ran(START, Trace(r)) == (s, panicked) && !Logged(r))
            && (!panicked && r.reaches ==> Ran(START, Trace(r)) == Ran(s, r.inner) && (Logged(r) <==> r.v1))
  {
    RanConcat(START, r.outer, r.inner);
  }
}
