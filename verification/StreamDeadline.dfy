/**
 The inactivity deadline of a stream as a timed automaton. Expiry of the timer and the run of its
 callback are separate steps, so a callback may run late, after a touch has already re-armed the timer.
*/
module StreamDeadline {
  import opened Prelude

  datatype Cause = Idle | Ceiling | ClientGone | Stopped

  /** `max` is None when the stream has no overall ceiling. */
  datatype Bounds = Bounds(idle: int, max: Option<int>)

  /** `timer` is when the armed timer expires; `running` counts callbacks that have started but not yet
      cancelled; `cause` is the context's first cancellation. */
  datatype State = State(now: int, timer: Option<int>, running: nat, cause: Option<Cause>)

  predicate AtCeiling(b: Bounds, now: int) {
    b.max.Some? && b.max.value <= now
  }

  /** When the timer armed at `touch` expires: the sooner of the two bounds, but never in the past. */
  function Due(b: Bounds, touch: int): int {
    var idle := touch + b.idle;
    var sooner := if b.max.Some? && b.max.value < idle then b.max.value else idle;
    if sooner < touch then touch else sooner
  }

  /** Only the first cancellation of a context is recorded. */
  function First(cause: Option<Cause>, c: Cause): Option<Cause> {
    if cause.Some? then cause else Some(c)
  }

  /** What cause() tells its caller: timeouts only. */
  function Reported(cause: Option<Cause>): Option<Cause> {
    if cause == Some(Idle) || cause == Some(Ceiling) then cause else None
  }

  class Deadline {
    const bounds: Bounds
    var timer: Option<int>
    var running: nat
    var cause: Option<Cause>

    function View(now: int): State
      reads this
    {
      State(now, timer, running, cause)
    }

    constructor (idle: int, overall: int, now: int)
      ensures bounds == Bounds(idle, if overall > 0 then Some(now + overall) else None)
      ensures View(now) == Started(bounds, now)
    {
      var max := if overall > 0 then Some(now + overall) else None;
      bounds := Bounds(idle, max);
      timer, running, cause := None, 0, None;
      new;
      var left := Until(now);
      timer := Some(now + left);
    }

    method Until(now: int) returns (left: int)
      ensures left >= 0 && now + left == Due(bounds, now)
    {
      left := bounds.idle;
      if bounds.max.Some? {
        var until := bounds.max.value - now;
        if until < left { left := until; }
      }
      if left < 0 { left := 0; }
    }

    method Cancel(c: Cause)
      modifies this`cause
      ensures cause == First(old(cause), c)
    {
      if cause.None? { cause := Some(c); }
    }

    method Touch(now: int)
      modifies this
      ensures View(now) == Step(bounds, old(View(now)), Event.Touch)
    {
      var left := Until(now);
      timer := Some(now + left);
    }

    method Expire(now: int)
      requires timer.Some? && timer.value <= now
      modifies this
      ensures View(now) == Step(bounds, old(View(now)), Event.Expire)
    {
      timer := None;
      running := running + 1;
    }

    method Fired(now: int)
      requires running > 0
      modifies this
      ensures View(now) == Step(bounds, old(View(now)), Fire)
    {
      running := running - 1;
      if bounds.max.Some? && !(now < bounds.max.value) {
        Cancel(Ceiling);
        return;
      }
      Cancel(Idle);
    }

    method Stop(now: int)
      modifies this
      ensures View(now) == Step(bounds, old(View(now)), Event.Stop)
    {
      timer := None;
      Cancel(Stopped);
    }
  }

  // ── Runs ─────────────────────────────────────────────────────────────────────

  datatype Event = Advance(ms: nat) | Touch | Expire | Fire | ClientLeft | Stop

  function Started(b: Bounds, now: int): State {
    State(now, Some(Due(b, now)), 0, None)
  }

  /** An event that is not possible yet changes nothing, so every list of events is a run. */
  function Step(b: Bounds, s: State, e: Event): State {
    match e
    case Advance(d) => s.(now := s.now + d)
    case Touch => s.(timer := Some(Due(b, s.now)))
    case Expire => if s.timer.Some? && s.timer.value <= s.now then s.(timer := None, running := s.running + 1) else s
    case Fire =>
      if s.running == 0 then s
      else s.(running := s.running - 1, cause := First(s.cause, if AtCeiling(b, s.now) then Ceiling else Idle))
    case ClientLeft => s.(cause := First(s.cause, ClientGone))
    case Stop => s.(timer := None, cause := First(s.cause, Stopped))
  }

  function Run(b: Bounds, s: State, events: seq<Event>): State {
    if events == [] then s else Step(b, Run(b, s, events[..|events| - 1]), events[|events| - 1])
  }

  /** The clock and the last sign of progress, read off the events alone. */
  function Clock(start: int, events: seq<Event>): int {
    if events == [] then start
    else
      var before := Clock(start, events[..|events| - 1]);
      if events[|events| - 1].Advance? then before + events[|events| - 1].ms else before
  }

  function LastTouch(start: int, events: seq<Event>): (t: int)
    ensures t <= Clock(start, events)
  {
    if events == [] then start
    else if events[|events| - 1].Touch? then Clock(start, events)
    else LastTouch(start, events[..|events| - 1])
  }

  /** At some moment of the run nothing had been heard for `idle`. */
  ghost predicate FellSilent(b: Bounds, start: int, events: seq<Event>) {
    exists k :: 0 <= k <= |events| && SilentAt(b, start, events[..k])
  }

  predicate SilentAt(b: Bounds, start: int, events: seq<Event>) {
    Clock(start, events) - LastTouch(start, events) >= b.idle
  }

  lemma SilenceStays(b: Bounds, start: int, events: seq<Event>, e: Event)
    ensures FellSilent(b, start, events) || SilentAt(b, start, events + [e]) ==> FellSilent(b, start, events + [e])
  {
    var longer := events + [e];
    assert longer[..|longer|] == longer;
    if FellSilent(b, start, events) {
      var k :| 0 <= k <= |events| && SilentAt(b, start, events[..k]);
      assert longer[..k] == events[..k];
    }
  }

  // ── Which cancellations can happen ───────────────────────────────────────────

  /** The gateway gives up only for the reason it reports: for silence when some gap had reached `idle`,
      for the ceiling when the time had come. In particular a stream whose gaps all stay below `idle`,
      before `max`, is never cancelled by the gateway, however late its callbacks run. */
  lemma {:induction false} GivesUpOnlyForCause(b: Bounds, start: int, events: seq<Event>)
    ensures var s := Run(b, Started(b, start), events);
            && s.now == Clock(start, events)
            && (s.timer.Some? ==> s.timer.value == Due(b, LastTouch(start, events)))
            && (s.running > 0 ==> FellSilent(b, start, events) || AtCeiling(b, s.now))
            && (s.cause == Some(Idle) ==> FellSilent(b, start, events))
            && (s.cause == Some(Ceiling) ==> AtCeiling(b, s.now))
    decreases |events|
  {
    if events != [] {
      var before, e := events[..|events| - 1], events[|events| - 1];
      GivesUpOnlyForCause(b, start, before);
      assert events == before + [e];
      SilenceStays(b, start, before, e);
    }
  }

  /** However late its callbacks run, a stream that keeps going is left alone until the ceiling. */
  lemma SteadyStreamsAreLeftAlone(b: Bounds, start: int, events: seq<Event>)
    requires forall k :: 0 <= k <= |events| ==> !SilentAt(b, start, events[..k])
    requires !AtCeiling(b, Clock(start, events))
    ensures Reported(Run(b, Started(b, start), events).cause) == None
  {
    GivesUpOnlyForCause(b, start, events);
  }

  lemma {:induction false} CausePersists(b: Bounds, s: State, events: seq<Event>)
    requires s.cause.Some?
    ensures Run(b, s, events).cause == s.cause
    decreases |events|
  {
    if events != [] { CausePersists(b, s, events[..|events| - 1]); }
  }

  lemma {:induction false} RunConcat(b: Bounds, s: State, before: seq<Event>, after: seq<Event>)
    ensures Run(b, s, before + after) == Run(b, Run(b, s, before), after)
    decreases |after|
  {
    if after == [] {
      assert before + after == before;
    } else {
      var all := before + after;
      assert all[..|all| - 1] == before + after[..|after| - 1];
      RunConcat(b, s, before, after[..|after| - 1]);
    }
  }

  /** The step that cancelled the context: the first one to name a cause. */
  ghost predicate CancelledBy(b: Bounds, start: int, events: seq<Event>, k: nat) {
    && k < |events|
    && Run(b, Started(b, start), events[..k]).cause.None?
    && Run(b, Started(b, start), events[..k + 1]).cause.Some?
  }

  /** Whatever happens after the first cancellation, touches, late callbacks, stop or a client hanging up,
      what cause() reports is decided by it alone: the ceiling exactly when a callback ran at or after
      `max`, silence exactly when one ran before it, nothing when the client or stop() came first. */
  lemma FirstCancellationDecides(b: Bounds, start: int, events: seq<Event>, k: nat)
    requires CancelledBy(b, start, events, k)
    ensures var r := Reported(Run(b, Started(b, start), events).cause);
            && (r == Some(Ceiling) <==> events[k].Fire? && AtCeiling(b, Clock(start, events[..k])))
            && (r == Some(Idle) <==> events[k].Fire? && !AtCeiling(b, Clock(start, events[..k])))
            && (r == None <==> events[k].ClientLeft? || events[k].Stop?)
  {
    var s := Started(b, start);
    GivesUpOnlyForCause(b, start, events[..k]);
    assert events[..k + 1][..k] == events[..k];
    CausePersists(b, Run(b, s, events[..k + 1]), events[k + 1..]);
    RunConcat(b, s, events[..k + 1], events[k + 1..]);
    assert events[..k + 1] + events[k + 1..] == events;
  }

  /** There is such a step in every cancelled run, and only one. */
  lemma {:induction false} CancelledOnce(b: Bounds, start: int, events: seq<Event>) returns (k: nat)
    requires Run(b, Started(b, start), events).cause.Some?
    ensures CancelledBy(b, start, events, k)
    ensures forall j: nat :: CancelledBy(b, start, events, j) ==> j == k
    decreases |events|
  {
    var before := events[..|events| - 1];
    if Run(b, Started(b, start), before).cause.Some? {
      k := CancelledOnce(b, start, before);
      assert events[..k] == before[..k] && events[..k + 1] == before[..k + 1];
    } else {
      k := |events| - 1;
      assert events[..k + 1] == events;
    }
    forall j: nat | CancelledBy(b, start, events, j) ensures j == k {
      if j < k {
        CauseStaysAlong(b, start, events, j + 1, k);
      } else if k < j {
        CauseStaysAlong(b, start, events, k + 1, j);
      }
    }
  }

  lemma CauseStaysAlong(b: Bounds, start: int, events: seq<Event>, i: nat, j: nat)
    requires i <= j <= |events| && Run(b, Started(b, start), events[..i]).cause.Some?
    ensures Run(b, Started(b, start), events[..j]).cause.Some?
  {
    assert events[..j] == events[..i] + events[i..j];
    RunConcat(b, Started(b, start), events[..i], events[i..j]);
    CausePersists(b, Run(b, Started(b, start), events[..i]), events[i..j]);
  }

  // ── With a prompt timer ──────────────────────────────────────────────────────

  /** Time does not pass over a due timer or a running callback. */
  predicate Prompt(s: State, e: Event) {
    e.Advance? && e.ms > 0 ==> s.running == 0 && (s.timer.Some? ==> s.now + e.ms <= s.timer.value)
  }

  predicate PromptRun(b: Bounds, s: State, events: seq<Event>) {
    events == [] || (PromptRun(b, s, events[..|events| - 1])
                    && Prompt(Run(b, s, events[..|events| - 1]), events[|events| - 1]))
  }

  /** Some touch of the run was due exactly now, and no time has passed since it was the last one. */
  ghost predicate JustDue(b: Bounds, start: int, events: seq<Event>) {
    exists k :: 0 <= k <= |events| && DueAt(b, start, events[..k], Clock(start, events))
  }

  predicate DueAt(b: Bounds, start: int, events: seq<Event>, now: int) {
    Clock(start, events) == now && Due(b, LastTouch(start, events)) == now
  }

  lemma JustDueStays(b: Bounds, start: int, events: seq<Event>, e: Event)
    requires Clock(start, events + [e]) == Clock(start, events)
    ensures JustDue(b, start, events) || DueAt(b, start, events, Clock(start, events))
        ==> JustDue(b, start, events + [e])
  {
    var longer := events + [e];
    if DueAt(b, start, events, Clock(start, events)) {
      assert longer[..|events|] == events;
    } else if JustDue(b, start, events) {
      var k :| 0 <= k <= |events| && DueAt(b, start, events[..k], Clock(start, events));
      assert longer[..k] == events[..k];
    }
  }

  lemma {:induction false} PromptInvariant(b: Bounds, start: int, events: seq<Event>)
    requires PromptRun(b, Started(b, start), events)
    ensures var s := Run(b, Started(b, start), events);
            s.cause.None? ==>
              && (s.running == 0 ==> s.timer.Some? && s.now <= s.timer.value)
              && (s.running > 0 ==> JustDue(b, start, events))
    decreases |events|
  {
    GivesUpOnlyForCause(b, start, events);
    if events != [] {
      var before, e := events[..|events| - 1], events[|events| - 1];
      PromptInvariant(b, start, before);
      GivesUpOnlyForCause(b, start, before);
      assert events == before + [e];
      if !e.Advance? || e.ms == 0 {
        assert Clock(start, events) == Clock(start, before);
        JustDueStays(b, start, before, e);
      }
    }
  }

  lemma {:induction false} TouchesMoveOn(start: int, events: seq<Event>, k: nat)
    requires k <= |events|
    ensures LastTouch(start, events[..k]) <= LastTouch(start, events)
    ensures Clock(start, events[..k]) <= Clock(start, events)
    decreases |events|
  {
    if k == |events| {
      assert events[..k] == events;
    } else {
      var before := events[..|events| - 1];
      assert before[..k] == events[..k];
      TouchesMoveOn(start, before, k);
    }
  }

  lemma JustDueIsNotLate(b: Bounds, start: int, events: seq<Event>)
    requires JustDue(b, start, events)
    ensures Clock(start, events) <= Due(b, LastTouch(start, events))
  {
    var k :| 0 <= k <= |events| && DueAt(b, start, events[..k], Clock(start, events));
    TouchesMoveOn(start, events, k);
  }

  /** A prompt timer is never early and never late: a stream that is still open is not past its due time,
      and a timeout happens at the due time of the last touch of that very instant or the one before it. */
  lemma PromptlyAtTheDeadline(b: Bounds, start: int, events: seq<Event>, e: Event)
    requires PromptRun(b, Started(b, start), events)
    requires Run(b, Started(b, start), events).cause.None?
    ensures Clock(start, events) <= Due(b, LastTouch(start, events))
    ensures Reported(Step(b, Run(b, Started(b, start), events), e).cause).Some? ==> JustDue(b, start, events)
  {
    PromptInvariant(b, start, events);
    GivesUpOnlyForCause(b, start, events);
    if JustDue(b, start, events) { JustDueIsNotLate(b, start, events); }
  }

  function Sooner(a: int, b: int): int {
    if a <= b then a else b
  }

  /** And it does fire: from any state of a prompt run in which no callback is under way, silence until the
      due time ends the stream there, for the ceiling exactly when `max` comes no later than the idle bound. */
  lemma SilenceIsEnded(b: Bounds, start: int, events: seq<Event>) returns (silence: seq<Event>)
    requires PromptRun(b, Started(b, start), events)
    requires Run(b, Started(b, start), events).cause.None? && Run(b, Started(b, start), events).running == 0
    ensures forall k :: 0 <= k < |silence| ==> silence[k].Advance? || silence[k].Expire? || silence[k].Fire?
    ensures PromptRun(b, Started(b, start), events + silence)
    ensures var touch := LastTouch(start, events);
            var s := Run(b, Started(b, start), events + silence);
            && s.now == Due(b, touch)
            && s.cause == Some(if AtCeiling(b, Due(b, touch)) then Ceiling else Idle)
            && (b.idle >= 0 && !AtCeiling(b, touch) ==>
                  && (b.max.None? ==> s.now == touch + b.idle)
                  && (b.max.Some? ==> s.now == Sooner(touch + b.idle, b.max.value))
                  && (s.cause == Some(Ceiling) <==> b.max.Some? && b.max.value <= touch + b.idle))
  {
    PromptInvariant(b, start, events);
    GivesUpOnlyForCause(b, start, events);
    var s0 := Started(b, start);
    var s := Run(b, s0, events);
    var wait := Advance(s.timer.value - s.now);
    silence := [wait, Expire, Fire];
    PromptSnoc(b, s0, events, wait);
    PromptSnoc(b, s0, events + [wait], Expire);
    PromptSnoc(b, s0, events + [wait] + [Expire], Fire);
    assert events + silence == events + [wait] + [Expire] + [Fire];
  }

  lemma PromptSnoc(b: Bounds, s: State, events: seq<Event>, e: Event)
    ensures Run(b, s, events + [e]) == Step(b, Run(b, s, events), e)
    ensures PromptRun(b, s, events + [e]) <==> PromptRun(b, s, events) && Prompt(Run(b, s, events), e)
  {
    assert (events + [e])[..|events|] == events;
  }
}
