/** The circuit breaker of app/integrations/nomba/base_client.py. */
module Breaker {
  import opened Types

  datatype State = Closed | Open | HalfOpen

  datatype Breaker = Breaker(
    threshold: int, resetTimeout: real, window: real,
    failures: seq<real>, lastFailure: Option<real>, state: State, probes: int)

  const PROBES := 3

  function Fresh(threshold: int, resetTimeout: real, window: real): Breaker {
    Breaker(threshold, resetTimeout, window, [], None, Closed, 0)
  }

  /** The times less than `window` before `now`, in order. */
  function Recent(times: seq<real>, now: real, window: real): (recent: seq<real>)
    ensures |recent| <= |times|
    ensures forall i | 0 <= i < |recent| :: now - recent[i] < window && recent[i] in times
  {
    if times == [] then []
    else
      var n := |times| - 1;
      Recent(times[..n], now, window) + if now - times[n] < window then [times[n]] else []
  }

  function Fail(b: Breaker, now: real): Breaker {
    var failures := Recent(b.failures, now, b.window) + [now];
    b.(failures := failures, lastFailure := Some(now), state := if |failures| >= b.threshold then Open else b.state)
  }

  function Succeed(b: Breaker): Breaker {
    b.(failures := [], state := Closed, probes := 0)
  }

  function Admits(b: Breaker, now: real): bool {
    match b.state
    case Closed => true
    case Open => b.lastFailure.Some? && now - b.lastFailure.value >= b.resetTimeout
    case HalfOpen => b.probes < PROBES
  }

  /** can_execute: the move to half-open admits a request without counting it. */
  function Ask(b: Breaker, now: real): Breaker {
    if !Admits(b, now) || b.state.Closed? then b
    else if b.state.Open? then b.(state := HalfOpen, probes := 0)
    else b.(probes := b.probes + 1)
  }

  datatype Event = Failed(at: real) | Succeeded(at: real) | Asked(at: real)

  function Step(b: Breaker, e: Event): Breaker {
    match e
    case Failed(at) => Fail(b, at)
    case Succeeded(_) => Succeed(b)
    case Asked(at) => Ask(b, at)
  }

  /** When the breaker is in which state, and what it remembers. */
  lemma {:induction false} StepDoes(b: Breaker, e: Event)
    ensures var b' := Step(b, e);
            var fills := e.Failed? && b.threshold <= |Recent(b.failures, e.at, b.window)| + 1;
            var waited := e.Asked? && b.lastFailure.Some? && b.lastFailure.value + b.resetTimeout <= e.at;
            && (b'.state == Open <==> fills || (b.state == Open && !e.Succeeded? && !waited))
            && (b'.state == HalfOpen <==>
                  !fills && !e.Succeeded? && (b.state == HalfOpen || (b.state == Open && waited)))
            && (b'.state == Closed <==> e.Succeeded? || (b.state == Closed && !fills))
            && b'.failures == (if e.Failed? then Recent(b.failures, e.at, b.window) + [e.at]
                               else if e.Succeeded? then [] else b.failures)
            && b'.lastFailure == (if e.Failed? then Some(e.at) else b.lastFailure)
            && b'.probes == (if e.Succeeded? || (b.state == Open && waited) then 0
                             else if e.Asked? && b.state == HalfOpen && b.probes < 3 then b.probes + 1
                             else b.probes)
            && (b'.threshold, b'.resetTimeout, b'.window) == (b.threshold, b.resetTimeout, b.window)
  {
  }

  function Run(b: Breaker, events: seq<Event>): Breaker {
    if events == [] then b
    else Step(Run(b, events[..|events| - 1]), events[|events| - 1])
  }

  lemma {:induction false} RunAppend(b: Breaker, events: seq<Event>, e: Event)
    ensures Run(b, events + [e]) == Step(Run(b, events), e)
  {
    assert (events + [e])[..|events|] == events;
  }

  ghost predicate ClockForward(events: seq<Event>) {
    forall i, j | 0 <= i <= j < |events| :: events[i].at <= events[j].at
  }

  // ------------------------------------------------------------------- window

  /** All failure times since the last success. */
  function History(events: seq<Event>): seq<real> {
    if events == [] then []
    else
      var before := History(events[..|events| - 1]);
      match events[|events| - 1]
      case Failed(at) => before + [at]
      case Succeeded(_) => []
      case Asked(_) => before
  }

  lemma {:induction false} RecentOfRecent(times: seq<real>, earlier: real, now: real, window: real)
    requires earlier <= now
    ensures Recent(Recent(times, earlier, window), now, window) == Recent(times, now, window)
  {
    if times != [] {
      var n := |times| - 1;
      var front := Recent(times[..n], earlier, window);
      RecentOfRecent(times[..n], earlier, now, window);
      if earlier - times[n] < window {
        assert (front + [times[n]])[..|front|] == front;
      } else {
        assert Recent(times, earlier, window) == front;
      }
    }
  }

  lemma {:induction false} RecentConcat(first: seq<real>, rest: seq<real>, now: real, window: real)
    ensures Recent(first + rest, now, window) == Recent(first, now, window) + Recent(rest, now, window)
  {
    if rest == [] {
      assert first + rest == first;
    } else {
      var n := |rest| - 1;
      assert (first + rest)[..|first| + n] == first + rest[..n];
      RecentConcat(first, rest[..n], now, window);
    }
  }

  /** Of each single time it says whether it is inside the window; so, with the above, of
      all of them in order. */
  lemma {:induction false} RecentMeans(t: real, now: real, window: real)
    ensures Recent([], now, window) == []
    ensures Recent([t], now, window) == if now - t < window then [t] else []
  {
    assert [t][..0] == [];
  }

  /** Once pruned for the last failure, the list is the window over the whole history. */
  ghost predicate Windowed(b: Breaker, history: seq<real>) {
    if history == [] then b.failures == []
    else
      var last := history[|history| - 1];
      b.lastFailure == Some(last) && b.failures == Recent(history, last, b.window)
  }

  lemma {:induction false} FailKeepsWindowed(b: Breaker, history: seq<real>, now: real)
    requires Windowed(b, history) && 0.0 < b.window
    requires forall i | 0 <= i < |history| :: history[i] <= now
    ensures Windowed(Fail(b, now), history + [now])
  {
    assert (history + [now])[..|history|] == history;
    if history != [] {
      RecentOfRecent(history, history[|history| - 1], now, b.window);
    }
  }

  lemma {:induction false} RunWindowed(initial: Breaker, events: seq<Event>)
    requires initial == Fresh(initial.threshold, initial.resetTimeout, initial.window) && 0.0 < initial.window
    requires ClockForward(events)
    ensures Windowed(Run(initial, events), History(events))
    ensures Run(initial, events).window == initial.window
  {
    if events != [] {
      var n := |events| - 1;
      RunWindowed(initial, events[..n]);
      if events[n].Failed? {
        HistoryIsPast(events[..n], events[n].at);
        FailKeepsWindowed(Run(initial, events[..n]), History(events[..n]), events[n].at);
      }
    }
  }

  lemma {:induction false} RecentEmptyWindow(times: seq<real>, now: real, window: real)
    requires window <= 0.0 && forall i | 0 <= i < |times| :: times[i] <= now
    ensures Recent(times, now, window) == []
  {
    if times != [] {
      RecentEmptyWindow(times[..|times| - 1], now, window);
    }
  }

  lemma {:induction false} HistoryIsPast(events: seq<Event>, now: real)
    requires forall i | 0 <= i < |events| :: events[i].at <= now
    ensures forall i | 0 <= i < |History(events)| :: History(events)[i] <= now
  {
    if events != [] {
      HistoryIsPast(events[..|events| - 1], now);
    }
  }

  lemma {:induction false} ParametersFixed(b: Breaker, events: seq<Event>)
    ensures var r := Run(b, events);
            r.threshold == b.threshold && r.resetTimeout == b.resetTimeout && r.window == b.window
  {
    if events != [] {
      ParametersFixed(b, events[..|events| - 1]);
    }
  }

  /** After any recorded failure the incrementally pruned list is the filter of the full
      failure history since the last success; for a window that is not positive the just
      recorded failure would be listed although it is not inside the window. */
  lemma {:induction false} PrunedListIsWindow(initial: Breaker, events: seq<Event>, now: real)
    requires initial == Fresh(initial.threshold, initial.resetTimeout, initial.window)
    requires ClockForward(events + [Failed(now)])
    ensures Run(initial, events + [Failed(now)]).failures
            == Recent(History(events + [Failed(now)]), now, initial.window)
            <==> 0.0 < initial.window
  {
    var all := events + [Failed(now)];
    assert all[..|events|] == events;
    if 0.0 < initial.window {
      RunWindowed(initial, all);
    } else {
      assert forall i | 0 <= i < |all| :: all[i].at <= all[|events|].at;
      HistoryIsPast(all, now);
      RecentEmptyWindow(History(all), now, initial.window);
      assert now in Run(initial, all).failures;
    }
  }

  // ------------------------------------------------------------------- safety

  /** Requests admitted since the breaker last became half-open, while it still is. */
  function EpisodeAdmitted(b: Breaker, events: seq<Event>): nat {
    if events == [] then 0
    else
      var n := |events| - 1;
      var before := Run(b, events[..n]);
      var after := Run(b, events);
      if !after.state.HalfOpen? then 0
      else EpisodeAdmitted(b, events[..n]) + if events[n].Asked? && Admits(before, events[n].at) then 1 else 0
  }

  /** Closed means fewer listed failures than the threshold; a half-open episode has
      admitted one request more than it counts, at most four. */
  lemma {:induction false} RunIsSafe(initial: Breaker, events: seq<Event>)
    requires initial == Fresh(initial.threshold, initial.resetTimeout, initial.window) && 1 <= initial.threshold
    ensures var b := Run(initial, events);
            && (b.state.Closed? ==> |b.failures| < b.threshold)
            && (b.state.Open? ==> b.lastFailure.Some?)
            && 0 <= b.probes <= PROBES
            && (b.state.HalfOpen? ==> EpisodeAdmitted(initial, events) == 1 + b.probes)
            && EpisodeAdmitted(initial, events) <= 1 + PROBES
            && b.threshold == initial.threshold
  {
    if events != [] {
      RunIsSafe(initial, events[..|events| - 1]);
      if !Run(initial, events[..|events| - 1]).state.HalfOpen? {
        EpisodeStartsAtZero(initial, events[..|events| - 1]);
      }
    }
  }

  lemma {:induction false} EpisodeStartsAtZero(b: Breaker, events: seq<Event>)
    requires !Run(b, events).state.HalfOpen?
    ensures EpisodeAdmitted(b, events) == 0
  {
  }

  /** The breaker opens only on a failure, exactly when that failure makes the number of
      failures since the last success inside the window reach the threshold. */
  lemma {:induction false} OpensExactlyAtThreshold(initial: Breaker, events: seq<Event>, e: Event)
    requires initial == Fresh(initial.threshold, initial.resetTimeout, initial.window) && 0.0 < initial.window
    requires ClockForward(events + [e])
    requires !Run(initial, events).state.Open?
    ensures Run(initial, events + [e]).state.Open? <==>
            e.Failed? && |Recent(History(events + [e]), e.at, initial.window)| >= initial.threshold
  {
    RunAppend(initial, events, e);
    ParametersFixed(initial, events);
    if e.Failed? {
      PrunedListIsWindow(initial, events, e.at);
    }
  }

  /** While open, nothing is admitted before the reset timeout has passed since the very
      last failure, and everything is from then on. */
  lemma {:induction false} OpenWaits(initial: Breaker, events: seq<Event>, now: real)
    requires initial == Fresh(initial.threshold, initial.resetTimeout, initial.window)
    requires 1 <= initial.threshold && 0.0 < initial.window && ClockForward(events)
    requires Run(initial, events).state.Open?
    ensures History(events) != []
    ensures Admits(Run(initial, events), now) <==>
            History(events)[|History(events)| - 1] + initial.resetTimeout <= now
  {
    RunIsSafe(initial, events);
    RunWindowed(initial, events);
    ParametersFixed(initial, events);
    OpenHasFailed(initial, events);
  }

  lemma {:induction false} OpenHasFailed(initial: Breaker, events: seq<Event>)
    requires initial == Fresh(initial.threshold, initial.resetTimeout, initial.window)
    requires !Run(initial, events).state.Closed?
    ensures History(events) != []
  {
    if events != [] && !events[|events| - 1].Failed? {
      OpenHasFailed(initial, events[..|events| - 1]);
    }
  }

  // ------------------------------------------------------------ used-up probes

  predicate Exhausted(b: Breaker) {
    b.state.HalfOpen? && b.probes >= PROBES
  }

  /** An outcome that gets a half-open breaker out of it: a success, or a failure that
      brings those in the window to the threshold. */
  predicate Frees(b: Breaker, e: Event) {
    e.Succeeded? || (e.Failed? && |Recent(b.failures, e.at, b.window)| + 1 >= b.threshold)
  }

  /** Nothing else does: not time, not requests, and not a failure that falls short. */
  lemma {:induction false} ExhaustedAfterIff(b: Breaker, e: Event)
    requires Exhausted(b)
    ensures Exhausted(Step(b, e)) <==> !Frees(b, e)
  {
  }

  /** Time alone never admits a fifth: once the probes are used up, no sequence of
      requests at any times is admitted until an outcome is recorded. */
  lemma {:induction false} ExhaustedStaysShut(b: Breaker, asks: seq<Event>, now: real)
    requires Exhausted(b)
    requires forall i | 0 <= i < |asks| :: asks[i].Asked?
    ensures Run(b, asks) == b && !Admits(Run(b, asks), now)
  {
    if asks != [] {
      ExhaustedStaysShut(b, asks[..|asks| - 1], now);
    }
  }

  predicate AllAsked(asks: seq<Event>) {
    forall i | 0 <= i < |asks| :: asks[i].Asked?
  }

  /** No request is ever admitted again, whenever and however often it is asked. */
  ghost predicate ShutForGood(b: Breaker) {
    forall asks: seq<Event>, now: real | AllAsked(asks) :: !Admits(Run(b, asks), now)
  }

  /** The only way for that is to be half-open with the probes used up. */
  lemma {:induction false} ShutForGoodIff(b: Breaker)
    requires b.state.Open? ==> b.lastFailure.Some?
    ensures ShutForGood(b) <==> Exhausted(b)
  {
    if Exhausted(b) {
      forall asks: seq<Event>, now: real | AllAsked(asks) ensures !Admits(Run(b, asks), now) {
        ExhaustedStaysShut(b, asks, now);
      }
    } else {
      var now := if b.state.Open? then b.lastFailure.value + b.resetTimeout else 0.0;
      assert AllAsked([]) && Run(b, []) == b && Admits(Run(b, []), now);
    }
  }

  function Asks(events: seq<Event>): nat {
    if events == [] then 0
    else Asks(events[..|events| - 1]) + if events[|events| - 1].Asked? then 1 else 0
  }

  /** Some event, in the state it found the breaker in, got it out of the half-open state. */
  predicate Freed(b: Breaker, events: seq<Event>) {
    exists k :: 0 <= k < |events| && Frees(Run(b, events[..k]), events[k])
  }

  lemma {:induction false} FreedStep(b: Breaker, events: seq<Event>)
    requires events != []
    ensures var n := |events| - 1;
            Freed(b, events) <==> Freed(b, events[..n]) || Frees(Run(b, events[..n]), events[n])
  {
    hide Frees, Run;
    var n := |events| - 1;
    assert forall k | 0 <= k < n :: events[..n][..k] == events[..k] && events[..n][k] == events[k];
  }

  /** From the move to half-open on: until it is freed the breaker counts its probes, and
      after that it has fewer than it was asked for. */
  lemma {:induction false} ProbesCounted(b: Breaker, events: seq<Event>)
    requires b.state.HalfOpen? && b.probes == 0
    ensures var after := Run(b, events);
            if Freed(b, events) then after.state.HalfOpen? ==> 0 <= after.probes < Asks(events)
            else after.state.HalfOpen? && after.probes == Types.Min(PROBES, Asks(events))
  {
    if events != [] {
      var n := |events| - 1;
      hide Freed, Recent;
      FreedStep(b, events);
      ProbesCounted(b, events[..n]);
    }
  }

  lemma {:induction false} KeepsLastFailure(b: Breaker, events: seq<Event>)
    requires b.state.Open? ==> b.lastFailure.Some?
    ensures Run(b, events).state.Open? ==> Run(b, events).lastFailure.Some?
  {
    if events != [] {
      KeepsLastFailure(b, events[..|events| - 1]);
    }
  }

  /** A half-open episode takes four sends: the one that began it and three probes.  With
      whatever outcomes in between and after, it leaves the breaker shut for good if and
      only if none of them was a success or a failure that brought those in the window to
      the threshold: four failures that fall short do not reopen the way to recovery. */
  lemma {:induction false} EpisodeShutsForGoodIff(b: Breaker, events: seq<Event>)
    requires b.state.HalfOpen? && b.probes == 0 && Asks(events) == PROBES
    ensures ShutForGood(Run(b, events)) <==> !Freed(b, events)
  {
    hide Freed, ShutForGood;
    ProbesCounted(b, events);
    KeepsLastFailure(b, events);
    ShutForGoodIff(Run(b, events));
  }

  lemma {:induction false} AllRecent(times: seq<real>, now: real, window: real)
    requires forall i | 0 <= i < |times| :: now - times[i] < window
    ensures Recent(times, now, window) == times
  {
    if times != [] {
      AllRecent(times[..|times| - 1], now, window);
    }
  }

  lemma {:induction false} NoneRecent(times: seq<real>, now: real, window: real)
    requires forall i | 0 <= i < |times| :: now - times[i] >= window
    ensures Recent(times, now, window) == []
  {
    if times != [] {
      NoneRecent(times[..|times| - 1], now, window);
    }
  }

  lemma {:induction false} RunLast(b: Breaker, events: seq<Event>, all: seq<Event>, e: Event)
    requires all == events + [e]
    ensures Run(b, all) == Step(Run(b, events), e)
  {
    RunAppend(b, events, e);
  }

  /** Five failures open the breaker. */
  const OPENING := [Failed(0.0), Failed(1.0), Failed(2.0), Failed(3.0), Failed(4.0)]

  /** A minute and a half later each of its four sends fails. */
  const PROBING := Probe(Probe(Probe(Probe([], 100.0), 101.0), 102.0), 103.0)

  /** One more send, admitted or not, and its failure. */
  function Probe(events: seq<Event>, at: real): seq<Event> {
    events + [Asked(at)] + [Failed(at)]
  }

  function Plain(failures: seq<real>, state: State, probes: int): Breaker {
    Breaker(5, 30.0, 60.0, failures, if failures == [] then None else Some(failures[|failures| - 1]), state, probes)
  }

  lemma {:induction false} FailsTo(failures: seq<real>, state: State, probes: int, at: real, after: seq<real>)
    requires forall i | 0 <= i < |failures| :: at - failures[i] < 60.0
    requires after == failures + [at]
    ensures Fail(Plain(failures, state, probes), at) == Plain(after, if |after| >= 5 then Open else state, probes)
  {
    AllRecent(failures, at, 60.0);
  }

  lemma {:induction false} OpeningState()
    ensures Run(Fresh(5, 30.0, 60.0), OPENING) == Plain([0.0, 1.0, 2.0, 3.0, 4.0], Open, 0)
  {
    hide Recent, Run;
    var b := Fresh(5, 30.0, 60.0);
    RunLast(b, OPENING[..4], OPENING, OPENING[4]);
    RunLast(b, OPENING[..3], OPENING[..4], OPENING[3]);
    RunLast(b, OPENING[..2], OPENING[..3], OPENING[2]);
    RunLast(b, OPENING[..1], OPENING[..2], OPENING[1]);
    RunLast(b, [], OPENING[..1], OPENING[0]);
    RunNone(b);
    FailsTo([], Closed, 0, 0.0, [0.0]);
    FailsTo([0.0], Closed, 0, 1.0, [0.0, 1.0]);
    FailsTo([0.0, 1.0], Closed, 0, 2.0, [0.0, 1.0, 2.0]);
    FailsTo([0.0, 1.0, 2.0], Closed, 0, 3.0, [0.0, 1.0, 2.0, 3.0]);
    FailsTo([0.0, 1.0, 2.0, 3.0], Closed, 0, 4.0, [0.0, 1.0, 2.0, 3.0, 4.0]);
  }

  lemma {:induction false} RunNone(b: Breaker)
    ensures Run(b, []) == b
  {
  }

  lemma {:induction false} ProbeRuns(b: Breaker, events: seq<Event>, at: real)
    ensures Run(b, Probe(events, at)) == Fail(Ask(Run(b, events), at), at)
  {
    hide Recent, Ask;
    RunAppend(b, events, Asked(at));
    RunAppend(b, events + [Asked(at)], Failed(at));
  }

  lemma {:induction false} FirstProbe(b: Breaker)
    requires b == Plain([0.0, 1.0, 2.0, 3.0, 4.0], Open, 0)
    ensures Run(b, Probe([], 100.0)) == Plain([100.0], HalfOpen, 0)
  {
    hide Run, Recent, Probe;
    ProbeRuns(b, [], 100.0);
    RunNone(b);
    NoneRecent(b.failures, 100.0, 60.0);
    assert [] + [100.0] == [100.0];
  }

  lemma {:induction false} NextProbe(b: Breaker, events: seq<Event>, failures: seq<real>, probes: int, at: real,
          after: seq<real>)
    requires Run(b, events) == Plain(failures, HalfOpen, probes) && probes < PROBES && |failures| < 4
    requires forall i | 0 <= i < |failures| :: at - failures[i] < 60.0
    requires after == failures + [at]
    ensures Run(b, Probe(events, at)) == Plain(after, HalfOpen, probes + 1)
  {
    hide Run;
    ProbeRuns(b, events, at);
    FailsTo(failures, HalfOpen, probes + 1, at, after);
  }

  lemma {:induction false} ProbingState(b: Breaker)
    requires b == Plain([0.0, 1.0, 2.0, 3.0, 4.0], Open, 0)
    ensures Run(b, PROBING) == Plain([100.0, 101.0, 102.0, 103.0], HalfOpen, 3)
  {
    hide Run, Probe, Plain;
    FirstProbe(b);
    NextProbe(b, Probe([], 100.0), [100.0], 0, 101.0, [100.0, 101.0]);
    NextProbe(b, Probe(Probe([], 100.0), 101.0), [100.0, 101.0], 1, 102.0, [100.0, 101.0, 102.0]);
    NextProbe(b, Probe(Probe(Probe([], 100.0), 101.0), 102.0), [100.0, 101.0, 102.0], 2, 103.0,
              [100.0, 101.0, 102.0, 103.0]);
  }

  /** All four sends were answered, and no request will ever be admitted again. */
  lemma {:induction false} FailedProbesShutForGood()
    ensures var tripped := Run(Fresh(5, 30.0, 60.0), OPENING);
            && tripped.state.Open? && Admits(tripped, 100.0)
            && ShutForGood(Run(tripped, PROBING))
  {
    hide Run, ShutForGood;
    OpeningState();
    ProbingState(Plain([0.0, 1.0, 2.0, 3.0, 4.0], Open, 0));
    ShutForGoodIff(Plain([100.0, 101.0, 102.0, 103.0], HalfOpen, 3));
  }

  /** The breaker object, which also remembers the events it has seen. */
  class CircuitBreaker {
    const threshold: int
    const resetTimeout: real
    const window: real
    var failures: seq<real>
    var lastFailure: Option<real>
    var state: State
    var probes: int
    ghost var log: seq<Event>

    constructor (threshold: int, resetTimeout: real, window: real)
      ensures View() == Fresh(threshold, resetTimeout, window) && log == [] && Valid()
    {
      this.threshold, this.resetTimeout, this.window := threshold, resetTimeout, window;
      failures, lastFailure, state, probes := [], None, Closed, 0;
      log := [];
    }

    function View(): Breaker
      reads this
    {
      Breaker(threshold, resetTimeout, window, failures, lastFailure, state, probes)
    }

    ghost predicate Valid()
      reads this
    {
      View() == Run(Fresh(threshold, resetTimeout, window), log)
    }

    method RecordFailure(now: real)
      modifies this
      ensures old(Valid()) ==> Valid()
      ensures log == old(log) + [Failed(now)] && View() == Fail(old(View()), now)
    {
      failures := Recent(failures, now, window);
      failures := failures + [now];
      lastFailure := Some(now);
      if |failures| >= threshold {
        state := Open;
      }
      RunAppend(Fresh(threshold, resetTimeout, window), log, Failed(now));
      log := log + [Failed(now)];
    }

    method RecordSuccess(now: real)
      modifies this
      ensures old(Valid()) ==> Valid()
      ensures log == old(log) + [Succeeded(now)] && View() == Succeed(old(View()))
    {
      failures := [];
      state := Closed;
      probes := 0;
      RunAppend(Fresh(threshold, resetTimeout, window), log, Succeeded(now));
      log := log + [Succeeded(now)];
    }

    method CanExecute(now: real) returns (admitted: bool)
      modifies this
      ensures old(Valid()) ==> Valid()
      ensures log == old(log) + [Asked(now)] && View() == Ask(old(View()), now)
      ensures admitted == Admits(old(View()), now)
    {
      RunAppend(Fresh(threshold, resetTimeout, window), log, Asked(now));
      log := log + [Asked(now)];
      match state {
        case Closed => return true;
        case Open =>
          if lastFailure.Some? {
            var elapsed := now - lastFailure.value;
            if elapsed >= resetTimeout {
              state := HalfOpen;
              probes := 0;
              return true;
            }
          }
          return false;
        case HalfOpen =>
          if probes < PROBES {
            probes := probes + 1;
            return true;
          }
          return false;
      }
    }
  }
}
