/**
 A batched log writer: a bounded queue that drops on overflow, and a worker that hands batches to the
 database. The interaction log and the request log each run this one loop. Each channel operation is one step, so lists
 of events are the interleavings of the worker with any number of producers.
*/
module LogWriter {
  import opened Prelude

  const QUEUE_SIZE := 1024
  const FLUSH_INTERVAL := 500
  const FLUSH_THRESHOLD := 100

  datatype Phase = Serving | Draining | Finished

  /** `timer` is when the armed timer fires; it stays in place until its tick is received. `handed` is the
      list of batches given to the database; `accepted`, `dropped` and `firstAt` (when the oldest entry of
      the batch was received) are history. */
  datatype State<T> = State(now: int, queue: seq<T>, dropped: nat, accepted: seq<T>,
                             batch: seq<T>, timer: Option<int>, timerActive: bool, firstAt: int,
                             handed: seq<seq<T>>, phase: Phase)

  function Init<T>(now: int): State<T> {
    State(now, [], 0, [], [], None, false, now, [], Serving)
  }

  function Offered<T>(s: State<T>, e: T): State<T> {
    if |s.queue| < QUEUE_SIZE then s.(queue := s.queue + [e], accepted := s.accepted + [e])
    else s.(dropped := s.dropped + 1)
  }

  function Flushed<T>(s: State<T>): State<T> {
    s.(handed := if s.batch == [] then s.handed else s.handed + [s.batch],
       batch := [],
       timer := if s.timerActive then None else s.timer,
       timerActive := false)
  }

  function Buffered<T>(s: State<T>): State<T>
    requires s.queue != []
  {
    s.(queue := s.queue[1..], batch := s.batch + [s.queue[0]], firstAt := if s.batch == [] then s.now else s.firstAt)
  }

  function Received<T>(s: State<T>): State<T>
    requires s.queue != []
  {
    var t := Buffered(s);
    var u := if t.timerActive then t else t.(timer := Some(t.now + FLUSH_INTERVAL), timerActive := true);
    if |u.batch| >= FLUSH_THRESHOLD then Flushed(u) else u
  }

  function Ticked<T>(s: State<T>): State<T> {
    Flushed(s.(timer := None, timerActive := false))
  }

  /** What the drain comes to when no producer adds to the queue meanwhile. */
  function Drained<T>(s: State<T>): State<T> {
    Flushed(s.(batch := s.batch + s.queue, queue := [],
               firstAt := if s.batch == [] && s.queue != [] then s.now else s.firstAt)).(phase := Finished)
  }

  class Writer<T> {
    var queue: seq<T>
    var dropped: nat
    var batch: seq<T>
    var timer: Option<int>
    var timerActive: bool
    var handed: seq<seq<T>>
    ghost var accepted: seq<T>
    ghost var firstAt: int
    ghost var phase: Phase

    ghost function View(now: int): State<T>
      reads this
    {
      State(now, queue, dropped, accepted, batch, timer, timerActive, firstAt, handed, phase)
    }

    constructor (now: int)
      ensures View(now) == Init(now)
    {
      queue, dropped, batch, timer, timerActive, handed := [], 0, [], None, false, [];
      accepted, firstAt, phase := [], now, Serving;
    }

    method Enqueue(e: T, ghost now: int)
      modifies this
      ensures View(now) == Offered(old(View(now)), e)
      ensures |old(queue)| < 1024 ==> queue == old(queue) + [e] && dropped == old(dropped)
      ensures |old(queue)| >= 1024 ==> queue == old(queue) && dropped == old(dropped) + 1
    {
      if |queue| < QUEUE_SIZE {
        queue := queue + [e];
        accepted := accepted + [e];
      } else {
        dropped := dropped + 1;
      }
    }

    method Flush(ghost now: int)
      modifies this
      ensures View(now) == Flushed(old(View(now)))
      ensures batch == [] && !timerActive && (old(timerActive) ==> timer == None)
      ensures handed == if old(batch) == [] then old(handed) else old(handed) + [old(batch)]
    {
      if |batch| > 0 {
        handed := handed + [batch];
        batch := [];
      }
      if timerActive {
        timer := None;   // stopped, and a tick that got away is drained
        timerActive := false;
      }
    }

    method Append(ghost now: int)
      requires queue != []
      modifies this
      ensures View(now) == Buffered(old(View(now)))
    {
      if batch == [] { firstAt := now; }
      batch := batch + [queue[0]];
      queue := queue[1..];
    }

    method Receive(now: int)
      requires queue != []
      modifies this
      ensures View(now) == Received(old(View(now)))
      ensures queue == old(queue)[1..]
      ensures |old(batch)| + 1 < 100 ==>
                batch == old(batch) + [old(queue)[0]] && handed == old(handed) && timerActive
                && (!old(timerActive) ==> timer == Some(now + 500)) && (old(timerActive) ==> timer == old(timer))
      ensures |old(batch)| + 1 >= 100 ==>
                batch == [] && handed == old(handed) + [old(batch) + [old(queue)[0]]] && !timerActive
    {
      Append(now);
      if !timerActive {
        timer := Some(now + FLUSH_INTERVAL);
        timerActive := true;
      }
      if |batch| >= FLUSH_THRESHOLD {
        Flush(now);
      }
    }

    method Tick(now: int)
      requires timer.Some? && timer.value <= now
      modifies this
      ensures View(now) == Ticked(old(View(now)))
    {
      timer := None;
      timerActive := false;
      Flush(now);
    }

    /** The loop that runs once the context is cancelled, with producers quiet. */
    method Drain(now: int)
      modifies this
      ensures View(now) == Drained(old(View(now)))
    {
      while queue != []
        invariant View(now).(queue := [], batch := [], firstAt := 0)
          == old(View(now)).(queue := [], batch := [], firstAt := 0)
        invariant batch + queue == old(batch + queue)
        invariant firstAt == if old(batch) == [] && batch != [] then now else old(firstAt)
        decreases |queue|
      {
        ghost var all := batch + queue;
        Append(now);
        assert batch + queue == all;
      }
      assert batch + queue == batch;
      Flush(now);
      phase := Finished;
    }
  }

  // ── Runs ─────────────────────────────────────────────────────────────────────

  datatype Event<T> = Advance(ms: nat) | Offer(e: T) | Receive | Tick | Cancel | DrainOne | DrainEnd

  predicate Enabled<T>(s: State<T>, e: Event<T>) {
    match e
    case Advance(_) => true
    case Offer(_) => true
    case Receive => s.phase.Serving? && s.queue != []
    case Tick => s.phase.Serving? && s.timer.Some? && s.timer.value <= s.now
    case Cancel => s.phase.Serving?
    case DrainOne => s.phase.Draining? && s.queue != []
    case DrainEnd => s.phase.Draining? && s.queue == []
  }

  /** An event that is not possible changes nothing, so every list of events is a run. */
  function Step<T>(s: State<T>, e: Event<T>): State<T> {
    if !Enabled(s, e) then s else
    match e
    case Advance(d) => s.(now := s.now + d)
    case Offer(x) => Offered(s, x)
    case Receive => Received(s)
    case Tick => Ticked(s)
    case Cancel => s.(phase := Draining)
    case DrainOne => Buffered(s)
    case DrainEnd => Flushed(s).(phase := Finished)
  }

  function Run<T>(s: State<T>, events: seq<Event<T>>): State<T>
    decreases |events|
  {
    if events == [] then s else Run(Step(s, events[0]), events[1..])
  }

  function Offers<T>(events: seq<Event<T>>): nat {
    if events == [] then 0 else (if events[0].Offer? then 1 else 0) + Offers(events[1..])
  }

  function Entries<T>(batches: seq<seq<T>>): seq<T> {
    if batches == [] then [] else Entries(batches[..|batches| - 1]) + batches[|batches| - 1]
  }

  lemma EntriesSnoc<T>(batches: seq<seq<T>>, b: seq<T>)
    ensures Entries(batches + [b]) == Entries(batches) + b
  {
    assert (batches + [b])[..|batches|] == batches;
  }

  // ── What every step keeps ────────────────────────────────────────────────────

  ghost predicate Conserved<T>(s: State<T>) {
    s.accepted == Entries(s.handed) + s.batch + s.queue
  }

  /** The timer runs exactly while a batch is waiting, and is due one interval after its first entry. */
  predicate TimerOk<T>(s: State<T>) {
    && (s.timerActive <==> s.timer.Some?)
    && (s.phase.Serving? ==> (s.timerActive <==> s.batch != []) && |s.batch| < FLUSH_THRESHOLD)
    && (s.phase.Serving? && s.batch != [] ==> s.timer == Some(s.firstAt + FLUSH_INTERVAL))
    && (s.phase.Finished? ==> s.batch == [] && s.timer.None?)
  }

  /** No batch is empty, and only the one that ends the drain may exceed the threshold. */
  predicate BatchesOk<T>(s: State<T>) {
    forall i :: 0 <= i < |s.handed| ==>
      s.handed[i] != [] && (i < |s.handed| - 1 || !s.phase.Finished? ==> |s.handed[i]| <= FLUSH_THRESHOLD)
  }

  ghost predicate Inv<T>(s: State<T>) {
    Conserved(s) && TimerOk(s) && BatchesOk(s) && |s.queue| <= QUEUE_SIZE
  }

  lemma FlushConserves<T>(s: State<T>)
    requires Conserved(s)
    ensures Conserved(Flushed(s))
  {
    if s.batch != [] { EntriesSnoc(s.handed, s.batch); }
  }

  lemma BufferConserves<T>(s: State<T>)
    requires Conserved(s) && s.queue != []
    ensures Conserved(Buffered(s))
  {
    assert s.queue == [s.queue[0]] + s.queue[1..];
  }

  lemma StepConserves<T>(s: State<T>, e: Event<T>)
    requires Conserved(s)
    ensures Conserved(Step(s, e))
  {
    if Enabled(s, e) {
      match e
      case Receive =>
        BufferConserves(s);
        var t := Buffered(s);
        FlushConserves(if t.timerActive then t else t.(timer := Some(t.now + FLUSH_INTERVAL), timerActive := true));
      case Tick => FlushConserves(s.(timer := None, timerActive := false));
      case DrainOne => BufferConserves(s);
      case DrainEnd => FlushConserves(s);
      case _ =>
    }
  }

  lemma StepKeepsInv<T>(s: State<T>, e: Event<T>)
    requires Inv(s)
    ensures Inv(Step(s, e))
    ensures |Step(s, e).accepted| + Step(s, e).dropped
         == |s.accepted| + s.dropped + if e.Offer? then 1 else 0
  {
    StepConserves(s, e);
    TimerKept(s, e);
    BatchesKept(s, e);
  }

  lemma TimerKept<T>(s: State<T>, e: Event<T>)
    requires TimerOk(s)
    ensures TimerOk(Step(s, e))
  {
  }

  lemma BatchesKept<T>(s: State<T>, e: Event<T>)
    requires BatchesOk(s) && TimerOk(s)
    ensures BatchesOk(Step(s, e))
  {
  }

  /** Nothing is lost, duplicated or reordered between being accepted and being handed over, in any run;
      every attempt is accepted or counted as dropped; and the timer guards exactly the waiting batch. */
  lemma {:induction false} NothingIsLost<T>(s: State<T>, events: seq<Event<T>>)
    requires Inv(s)
    ensures Inv(Run(s, events))
    ensures var t := Run(s, events);
            && t.accepted == Entries(t.handed) + t.batch + t.queue && |t.queue| <= 1024
            && (t.phase.Serving? ==> (t.timerActive <==> t.batch != []) && |t.batch| < 100)
    ensures |Run(s, events).accepted| + Run(s, events).dropped == |s.accepted| + s.dropped + Offers(events)
    decreases |events|
  {
    if events != [] {
      StepKeepsInv(s, events[0]);
      NothingIsLost(Step(s, events[0]), events[1..]);
    }
  }

  /** An entry is dropped only when 1024 accepted entries are still waiting in the queue. */
  lemma DropsOnlyWhenFull<T>(now: int, events: seq<Event<T>>, e: Event<T>)
    ensures var s := Run(Init(now), events);
            Step(s, e).dropped == s.dropped + (if e.Offer? && |s.queue| == 1024 then 1 else 0)
  {
    NothingIsLost(Init(now), events);
  }

  /** A tick never finds an empty batch, and with a timer served on time no entry waits in the batch for
      longer than the flush interval: time can only pass `firstAt + 500` over a timer that is due. */
  lemma TicksFlushWaitingEntries<T>(now: int, events: seq<Event<T>>)
    ensures var s := Run(Init(now), events);
            && (Enabled(s, Tick) ==> s.batch != [] && Step(s, Tick).handed == s.handed + [s.batch])
            && (s.phase.Serving? && s.batch != [] && s.firstAt + 500 <= s.now ==> Enabled(s, Tick))
            && (s.phase.Serving? && s.batch != [] && s.now < s.firstAt + 500 ==> !Enabled(s, Tick))
  {
    NothingIsLost(Init(now), events);
  }

  /** Receiving hands a batch over exactly when it completes a hundred. */
  lemma ReceiveFlushesAtThreshold<T>(now: int, events: seq<Event<T>>)
    ensures var s := Run(Init(now), events);
            Enabled(s, Receive) ==>
              var batch := s.batch + [s.queue[0]];
              var t := Step(s, Receive);
              && (|batch| == 100 ==> t.handed == s.handed + [batch] && t.batch == [])
              && (|batch| < 100 ==> t.handed == s.handed && t.batch == batch)
              && |batch| <= 100
  {
    NothingIsLost(Init(now), events);
  }

  // ── Shutdown ─────────────────────────────────────────────────────────────────

  function DrainSteps<T>(n: nat): (events: seq<Event<T>>)
    ensures |events| == n + 1
  {
    if n == 0 then [DrainEnd] else [DrainOne] + DrainSteps(n - 1)
  }

  /** With producers quiet the drain comes to an end after one step per queued entry and one more. */
  lemma {:induction false} QuietDrainEnds<T>(s: State<T>)
    requires s.phase.Draining?
    ensures Run(s, DrainSteps(|s.queue|)) == Drained(s)
    decreases |s.queue|
  {
    if s.queue == [] {
      assert s.batch + s.queue == s.batch;
      assert Run(s, DrainSteps(0)) == Run(Step(s, DrainEnd), []);
    } else {
      var t := Step(s, DrainOne);
      assert t.batch + t.queue == s.batch + s.queue;
      QuietDrainEnds(t);
      assert DrainSteps<T>(|s.queue|)[1..] == DrainSteps(|t.queue|);
    }
  }

  /** After any run, cancellation and a quiet drain, everything ever accepted has been handed over in order. */
  lemma ShutdownHandsOverEverything<T>(now: int, events: seq<Event<T>>)
    ensures var s := Run(Init(now), events);
            s.phase.Serving? ==>
              var done := Run(Step(s, Cancel), DrainSteps(|s.queue|));
              done.phase.Finished? && Entries(done.handed) == s.accepted && done.queue == [] && done.batch == []
  {
    NothingIsLost(Init(now), events);
    var s := Run(Init(now), events);
    if s.phase.Serving? {
      QuietDrainEnds(Step(s, Cancel));
      DrainedHandsOver(Step(s, Cancel));
    }
  }

  lemma DrainedHandsOver<T>(s: State<T>)
    requires Conserved(s)
    ensures Entries(Drained(s).handed) == s.accepted
  {
    if s.batch + s.queue != [] { EntriesSnoc(s.handed, s.batch + s.queue); }
    assert Entries(s.handed) + s.batch + s.queue == Entries(s.handed) + (s.batch + s.queue);
  }

  /** Even with producers still active, whatever was accepted before the drain ended has been handed over;
      what is accepted later stays in the queue for good. */
  lemma {:induction false} OnlyLateEntriesAreLeft<T>(s: State<T>, events: seq<Event<T>>)
    requires Inv(s) && s.phase.Draining? && s.queue == []
    ensures var done := Run(Step(s, DrainEnd), events);
            Entries(done.handed) == s.accepted && done.accepted == s.accepted + done.queue
  {
    StepKeepsInv(s, DrainEnd);
    FinishedStays(Step(s, DrainEnd), events);
    NothingIsLost(Step(s, DrainEnd), events);
  }

  lemma {:induction false} FinishedStays<T>(s: State<T>, events: seq<Event<T>>)
    requires Inv(s) && s.phase.Finished?
    ensures Run(s, events).phase.Finished? && Run(s, events).handed == s.handed
    ensures Run(s, events).batch == []
    decreases |events|
  {
    if events != [] {
      StepKeepsInv(s, events[0]);
      FinishedStays(Step(s, events[0]), events[1..]);
    }
  }
}
