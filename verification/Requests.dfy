/** The retrying request loop of app/integrations/nomba/base_client.py. */
module Requests {
  import Types
  import opened Breaker

  /** What one send came to: an httpx failure, or a response with a status code, whose
      Retry-After header, if there is one, is a number or not. */
  datatype Outcome = TimedOut | ConnectFailed | OtherHttpFailure | Response(status: int, retryAfterReads: bool)

  datatype Problem =
    | CircuitOpen | TimeoutProblem | ConnectProblem | HttpProblem
    | RateLimited | HeaderUnreadable | ServerProblem(status: int) | Invalid | Unauthorized | Missing | Conflict
    | UnexpectedStatus(status: int) | NeverSent

  datatype Result = Returned(status: int) | Raised(problem: Problem)

  /** One turn of the loop as the environment plays it: when the breaker is asked, what
      the send comes to, and when that is known. */
  datatype Turn = Turn(askedAt: real, outcome: Outcome, doneAt: real)

  predicate Ok(status: int) {
    200 <= status < 300
  }

  predicate ServerSide(status: int) {
    500 <= status < 600
  }

  /** Sends the breaker hears of as failures: transport failures and 5xx responses. */
  predicate Failing(o: Outcome) {
    !o.Response? || ServerSide(o.status)
  }

  predicate Retryable(o: Outcome) {
    o.TimedOut? || o.ConnectFailed?
  }

  /** What the caller sees when `o` is the last outcome. */
  function Final(o: Outcome): (r: Result)
    ensures r != Raised(CircuitOpen)
  {
    match o
    case TimedOut => Raised(TimeoutProblem)
    case ConnectFailed => Raised(ConnectProblem)
    case OtherHttpFailure => Raised(HttpProblem)
    case Response(status, retryAfterReads) =>
      if status == 429 then Raised(if retryAfterReads then RateLimited else HeaderUnreadable)
      else if ServerSide(status) then Raised(ServerProblem(status))
      else if status == 400 then Raised(Invalid)
      else if status == 401 then Raised(Unauthorized)
      else if status == 404 then Raised(Missing)
      else if status == 409 then Raised(Conflict)
      else if Ok(status) then Returned(status)
      else Raised(UnexpectedStatus(status))
  }

  /** What the breaker is told; a 4xx answer, and any other odd status, tells it nothing. */
  function Told(turn: Turn): seq<Event> {
    if Failing(turn.outcome) then [Failed(turn.doneAt)]
    else if Ok(turn.outcome.status) then [Succeeded(turn.doneAt)]
    else []
  }

  /** The breaker events of the first n turns. */
  function Events(turns: seq<Turn>, n: nat): seq<Event>
    requires n <= |turns|
  {
    if n == 0 then [] else Events(turns, n - 1) + [Asked(turns[n - 1].askedAt)] + Told(turns[n - 1])
  }

  /** The most sends one call may make. */
  function Cap(maxRetries: int, idempotent: bool): nat {
    if maxRetries < 0 then 0 else if idempotent then maxRetries + 1 else Types.Min(2, maxRetries + 1)
  }

  /** The breaker lets turn n happen after the n turns before it. */
  predicate Admitted(b: Breaker, turns: seq<Turn>, n: nat)
    requires n < |turns|
  {
    Admits(Run(b, Events(turns, n)), turns[n].askedAt)
  }

  /** Each of the first n sends was preceded by an admitting breaker check. */
  ghost predicate AllAdmitted(b: Breaker, turns: seq<Turn>, n: nat)
    requires n <= |turns|
  {
    forall i | 0 <= i < n :: Admitted(b, turns, i)
  }

  /** The loop is still going after n sends: all were admitted and came to something retryable. */
  ghost predicate Going(b: Breaker, turns: seq<Turn>, n: nat)
    requires n <= |turns|
  {
    AllAdmitted(b, turns, n) && forall i | 0 <= i < n :: Retryable(turns[i].outcome)
  }

  /** `sends` turns were played against breaker `b`, and the loop had to stop there:
      everything before the last send was retryable, every send was admitted, and what
      ended the loop was a refusal, the cap, or an outcome that is not retried. */
  ghost predicate Plays(b: Breaker, turns: seq<Turn>, maxRetries: int, idempotent: bool, sends: nat, refused: bool) {
    && Cap(maxRetries, idempotent) <= |turns|
    && sends <= Cap(maxRetries, idempotent)
    && AllAdmitted(b, turns, sends)
    && (forall i | 0 <= i < sends - 1 :: Retryable(turns[i].outcome))
    && if refused then
         && sends < Cap(maxRetries, idempotent)
         && !Admitted(b, turns, sends)
         && (0 < sends ==> Retryable(turns[sends - 1].outcome))
       else
         sends == Cap(maxRetries, idempotent) || (0 < sends && !Retryable(turns[sends - 1].outcome))
  }

  /** Which outcomes a call goes on after, and which end it: it goes on after a timeout or a
      failure to connect, as long as the cap and the breaker allow, and after nothing else. */
  lemma {:induction false} GoesOnAfter(b: Breaker, turns: seq<Turn>, maxRetries: int, idempotent: bool, sends: nat,
          refused: bool)
    requires Plays(b, turns, maxRetries, idempotent, sends, refused)
    ensures forall i | 0 <= i < sends - 1 :: turns[i].outcome in {TimedOut, ConnectFailed}
    ensures 0 < sends < Cap(maxRetries, idempotent) && !refused ==>
              turns[sends - 1].outcome.OtherHttpFailure? || turns[sends - 1].outcome.Response?
    ensures 0 < sends && refused ==> turns[sends - 1].outcome in {TimedOut, ConnectFailed}
    ensures 0 < Cap(maxRetries, idempotent) && !refused ==> 0 < sends
    ensures forall i | 0 <= i < sends && i + 1 < Cap(maxRetries, idempotent) && Admitted(b, turns, i + 1) ::
              turns[i].outcome in {TimedOut, ConnectFailed} ==> i + 1 < sends
  {
  }

  /** One send and the retries; without idempotence one retry at most. */
  lemma {:induction false} CapMeans(maxRetries: int, idempotent: bool)
    ensures Cap(maxRetries, idempotent) ==
            if maxRetries < 0 then 0 else if idempotent || maxRetries < 1 then 1 + maxRetries else 2
  {
  }

  /** The answer of a call is that of its last send, unless the breaker refused one. */
  lemma {:induction false} AnswerMeans(turns: seq<Turn>, sends: nat)
    requires sends <= |turns|
    ensures Answer(turns, sends, true) == Raised(CircuitOpen)
    ensures 0 < sends ==> Answer(turns, sends, false) == Final(turns[sends - 1].outcome)
    ensures Answer(turns, 0, false) == Raised(NeverSent)
  {
  }

  /** Which outcome the caller sees as what. */
  lemma {:induction false} FinalMeans(o: Outcome)
    ensures Final(o) == Raised(TimeoutProblem) <==> o == TimedOut
    ensures Final(o) == Raised(ConnectProblem) <==> o == ConnectFailed
    ensures Final(o) == Raised(HttpProblem) <==> o == OtherHttpFailure
    ensures Final(o) == Raised(RateLimited) <==> o == Response(429, true)
    ensures Final(o) == Raised(HeaderUnreadable) <==> o == Response(429, false)
    ensures o.Response? ==>
              var s := o.status;
              && (Final(o) == Raised(Invalid) <==> s == 400)
              && (Final(o) == Raised(Unauthorized) <==> s == 401)
              && (Final(o) == Raised(Missing) <==> s == 404)
              && (Final(o) == Raised(Conflict) <==> s == 409)
              && (Final(o) == Raised(ServerProblem(s)) <==> 500 <= s <= 599)
              && (Final(o) == Returned(s) <==> 200 <= s <= 299)
              && (Final(o) == Raised(UnexpectedStatus(s)) <==>
                    !(200 <= s <= 299 || 500 <= s <= 599 || s in {400, 401, 404, 409, 429}))
  {
  }

  /** What the breaker hears of each: transport failures and 5xx as failures, 2xx as
      successes, and nothing of the rest. */
  lemma {:induction false} ToldMeans(turn: Turn)
    ensures Told(turn) == [Failed(turn.doneAt)] <==>
              turn.outcome.Response? ==> 500 <= turn.outcome.status <= 599
    ensures Told(turn) == [Succeeded(turn.doneAt)] <==>
              turn.outcome.Response? && 200 <= turn.outcome.status <= 299
    ensures Told(turn) == [] <==>
              && turn.outcome.Response?
              && !(200 <= turn.outcome.status <= 299) && !(500 <= turn.outcome.status <= 599)
  {
    assert [Failed(turn.doneAt)][0].Failed? && [Succeeded(turn.doneAt)][0].Succeeded?;
  }

  /** The environment and the breaker leave no choice in how many sends there are. */
  lemma {:induction false} PlaysOneWay(b: Breaker, turns: seq<Turn>, maxRetries: int, idempotent: bool,
          n: nat, refused: bool, n': nat, refused': bool)
    requires Plays(b, turns, maxRetries, idempotent, n, refused)
    requires Plays(b, turns, maxRetries, idempotent, n', refused')
    ensures n == n' && refused == refused'
  {
  }

  lemma {:induction false} RunConcat(b: Breaker, first: seq<Event>, rest: seq<Event>)
    ensures Run(b, first + rest) == Run(Run(b, first), rest)
  {
    if rest == [] {
      assert first + rest == first;
    } else {
      var n := |rest| - 1;
      assert (first + rest)[..|first| + n] == first + rest[..n];
      RunConcat(b, first, rest[..n]);
    }
  }

  /** What a call that stopped after `sends` turns has told the breaker. */
  function Heard(turns: seq<Turn>, sends: nat, refused: bool): seq<Event>
    requires sends <= |turns| && (refused ==> sends < |turns|)
  {
    Events(turns, sends) + if refused then [Asked(turns[sends].askedAt)] else []
  }

  lemma {:induction false} TurnRuns(b: Breaker, turns: seq<Turn>, n: nat)
    requires n < |turns|
    ensures Run(b, Events(turns, n + 1)) == Run(Ask(Run(b, Events(turns, n)), turns[n].askedAt), Told(turns[n]))
    ensures Run(b, Heard(turns, n, true)) == Ask(Run(b, Events(turns, n)), turns[n].askedAt)
  {
    RunAppend(b, Events(turns, n), Asked(turns[n].askedAt));
    RunConcat(b, Events(turns, n) + [Asked(turns[n].askedAt)], Told(turns[n]));
  }

  lemma {:induction false} TurnHeard(log: seq<Event>, turns: seq<Turn>, n: nat)
    requires n < |turns|
    ensures log + Events(turns, n) + [Asked(turns[n].askedAt)] + Told(turns[n]) == log + Events(turns, n + 1)
    ensures log + Events(turns, n) + [Asked(turns[n].askedAt)] + [] == log + Heard(turns, n, true)
  {
  }

  /** What such a call answers. */
  function Answer(turns: seq<Turn>, sends: nat, refused: bool): Result
    requires sends <= |turns|
  {
    if refused then Raised(CircuitOpen)
    else if sends == 0 then Raised(NeverSent)
    else Final(turns[sends - 1].outcome)
  }

  lemma {:induction false} Starts(b: Breaker, turns: seq<Turn>)
    ensures Going(b, turns, 0) && Events(turns, 0) == [] && Run(b, []) == b
  {
  }

  lemma {:induction false} GoesOn(b: Breaker, turns: seq<Turn>, n: nat)
    requires n < |turns| && Going(b, turns, n) && Admitted(b, turns, n)
    ensures AllAdmitted(b, turns, n + 1)
    ensures Retryable(turns[n].outcome) ==> Going(b, turns, n + 1)
  {
  }

  lemma {:induction false} Stops(b: Breaker, turns: seq<Turn>, maxRetries: int, idempotent: bool, sends: nat)
    requires sends <= Cap(maxRetries, idempotent) <= |turns| && AllAdmitted(b, turns, sends)
    requires 0 < sends ==> Going(b, turns, sends - 1)
    requires sends == Cap(maxRetries, idempotent) || (0 < sends && !Retryable(turns[sends - 1].outcome))
    ensures Plays(b, turns, maxRetries, idempotent, sends, false)
    ensures Heard(turns, sends, false) == Events(turns, sends)
  {
  }

  lemma {:induction false} IsRefused(b: Breaker, turns: seq<Turn>, maxRetries: int, idempotent: bool, sends: nat)
    requires sends < Cap(maxRetries, idempotent) <= |turns| && Going(b, turns, sends)
    requires !Admitted(b, turns, sends)
    ensures Plays(b, turns, maxRetries, idempotent, sends, true)
  {
  }

  function FailureCount(events: seq<Event>): nat {
    if events == [] then 0
    else FailureCount(events[..|events| - 1]) + if events[|events| - 1].Failed? then 1 else 0
  }

  function FailedSends(turns: seq<Turn>, n: nat): nat
    requires n <= |turns|
  {
    if n == 0 then 0 else FailedSends(turns, n - 1) + if Failing(turns[n - 1].outcome) then 1 else 0
  }

  /** The breaker hears of exactly the failed sends. */
  lemma {:induction false} FailuresAreFailedSends(turns: seq<Turn>, n: nat)
    requires n <= |turns|
    ensures FailureCount(Events(turns, n)) == FailedSends(turns, n)
  {
    if n > 0 {
      FailuresAreFailedSends(turns, n - 1);
      var asked := Events(turns, n - 1) + [Asked(turns[n - 1].askedAt)];
      assert asked[..|asked| - 1] == Events(turns, n - 1);
      if Told(turns[n - 1]) == [] {
        assert Events(turns, n) == asked;
      } else {
        assert Events(turns, n)[..|asked|] == asked;
      }
    }
  }

  lemma {:induction false} FailedSendsBound(turns: seq<Turn>, n: nat)
    requires n <= |turns|
    ensures FailedSends(turns, n) <= n
  {
    if n > 0 {
      FailedSendsBound(turns, n - 1);
    }
  }

  /** However a call ends, it records at most as many failures as the cap. */
  lemma {:induction false} FailuresWithinCap(b: Breaker, turns: seq<Turn>, maxRetries: int, idempotent: bool,
          sends: nat, refused: bool)
    requires Plays(b, turns, maxRetries, idempotent, sends, refused)
    ensures FailureCount(Heard(turns, sends, refused)) == FailedSends(turns, sends) <= Cap(maxRetries, idempotent)
  {
    FailuresAreFailedSends(turns, sends);
    FailedSendsBound(turns, sends);
    if refused {
      assert Heard(turns, sends, true)[..|Events(turns, sends)|] == Events(turns, sends);
    } else {
      assert Heard(turns, sends, false) == Events(turns, sends);
    }
  }

  /** A call that returns a response leaves the breaker closed with an empty window, after
      one failure for each earlier send. */
  lemma {:induction false} PlayedCallOnBreaker(b: Breaker, turns: seq<Turn>, maxRetries: int, idempotent: bool,
          sends: nat)
    requires Plays(b, turns, maxRetries, idempotent, sends, false)
    requires 0 < sends && Final(turns[sends - 1].outcome).Returned?
    ensures var after := Run(b, Events(turns, sends));
            after.state.Closed? && after.failures == [] && Admits(after, turns[sends - 1].doneAt)
    ensures FailureCount(Events(turns, sends)) == sends - 1
  {
    var asked := Events(turns, sends - 1) + [Asked(turns[sends - 1].askedAt)];
    assert Events(turns, sends)[..|asked|] == asked;
    FailuresAreFailedSends(turns, sends);
    AllFailed(turns, sends - 1);
  }

  lemma {:induction false} AllFailed(turns: seq<Turn>, n: nat)
    requires n <= |turns| && forall i | 0 <= i < n :: Retryable(turns[i].outcome)
    ensures FailedSends(turns, n) == n
  {
    if n > 0 {
      AllFailed(turns, n - 1);
    }
  }

  class NombaClient {
    const breaker: CircuitBreaker
    const maxRetries: int

    constructor (breaker: CircuitBreaker, maxRetries: int)
      ensures this.breaker == breaker && this.maxRetries == maxRetries
    {
      this.breaker, this.maxRetries := breaker, maxRetries;
    }

    method HandleResponse(status: int, retryAfterReads: bool, now: real) returns (result: Result)
      modifies breaker
      ensures result == Final(Response(status, retryAfterReads))
      ensures breaker.log == old(breaker.log) + Told(Turn(now, Response(status, retryAfterReads), now))
      ensures breaker.View() == Run(old(breaker.View()), Told(Turn(now, Response(status, retryAfterReads), now)))
    {
      assert forall e: Event :: [e][..0] == [];
      if status == 429 {
        if !retryAfterReads {
          return Raised(HeaderUnreadable);
        }
        return Raised(RateLimited);
      }
      if 500 <= status < 600 {
        breaker.RecordFailure(now);
        return Raised(ServerProblem(status));
      }
      if status == 400 {
        return Raised(Invalid);
      }
      if status == 401 {
        return Raised(Unauthorized);
      }
      if status == 404 {
        return Raised(Missing);
      }
      if status == 409 {
        return Raised(Conflict);
      }
      if 200 <= status < 300 {
        breaker.RecordSuccess(now);
        return Returned(status);
      }
      return Raised(UnexpectedStatus(status));
    }

    /** Take in what a send came to. */
    method Settle(turn: Turn) returns (result: Result)
      modifies breaker
      ensures result == Final(turn.outcome)
      ensures breaker.log == old(breaker.log) + Told(turn)
      ensures breaker.View() == Run(old(breaker.View()), Told(turn))
    {
      assert forall e: Event :: [e][..0] == [];
      match turn.outcome {
        case Response(status, retryAfterReads) =>
          result := HandleResponse(status, retryAfterReads, turn.doneAt);
        case TimedOut =>
          breaker.RecordFailure(turn.doneAt);
          return Raised(TimeoutProblem);
        case ConnectFailed =>
          breaker.RecordFailure(turn.doneAt);
          return Raised(ConnectProblem);
        case OtherHttpFailure =>
          breaker.RecordFailure(turn.doneAt);
          return Raised(HttpProblem);
      }
    }

    /** Ask the breaker and, if it admits, play the turn. */
    method Attempt(turn: Turn) returns (result: Result)
      modifies breaker
      ensures var admitted := Admits(old(breaker.View()), turn.askedAt);
              && result == (if admitted then Final(turn.outcome) else Raised(CircuitOpen))
              && breaker.log == old(breaker.log) + [Asked(turn.askedAt)] + (if admitted then Told(turn) else [])
              && breaker.View() == Run(Ask(old(breaker.View()), turn.askedAt), if admitted then Told(turn) else [])
    {
      var admitted := breaker.CanExecute(turn.askedAt);
      if !admitted {
        return Raised(CircuitOpen);
      }
      result := Settle(turn);
    }

    /** Turn n of a call that began with breaker `b` and `log`, and is still going. */
    method PlayTurn(turns: seq<Turn>, n: nat, ghost b: Breaker, ghost log: seq<Event>) returns (result: Result)
      requires n < |turns| && Going(b, turns, n)
      requires breaker.log == log + Events(turns, n) && breaker.View() == Run(b, Events(turns, n))
      modifies breaker
      ensures result == Raised(CircuitOpen) <==> !Admitted(b, turns, n)
      ensures Admitted(b, turns, n) ==>
                && result == Answer(turns, n + 1, false)
                && breaker.log == log + Events(turns, n + 1) && breaker.View() == Run(b, Events(turns, n + 1))
                && AllAdmitted(b, turns, n + 1) && (Retryable(turns[n].outcome) ==> Going(b, turns, n + 1))
      ensures !Admitted(b, turns, n) ==>
                breaker.log == log + Heard(turns, n, true) && breaker.View() == Run(b, Heard(turns, n, true))
    {
      TurnRuns(b, turns, n);
      TurnHeard(log, turns, n);
      result := Attempt(turns[n]);
      if result != Raised(CircuitOpen) {
        GoesOn(b, turns, n);
      }
    }

    /** One call: at most one turn per attempt is taken from `turns`. */
    method Request(turns: seq<Turn>, idempotent: bool) returns (result: Result, sends: nat)
      requires maxRetries + 1 <= |turns|
      modifies breaker
      ensures Plays(old(breaker.View()), turns, maxRetries, idempotent, sends, result == Raised(CircuitOpen))
      ensures breaker.log == old(breaker.log) + Heard(turns, sends, result == Raised(CircuitOpen))
      ensures breaker.View() == Run(old(breaker.View()), Heard(turns, sends, result == Raised(CircuitOpen)))
      ensures result == Answer(turns, sends, result == Raised(CircuitOpen))
    {
      hide Run, Events;
      ghost var b := breaker.View();
      ghost var log := breaker.log;
      Starts(b, turns);
      result := Raised(NeverSent);
      var attempt := 0;
      sends := 0;
      while attempt <= maxRetries
        invariant sends == attempt <= Cap(maxRetries, idempotent) <= |turns|
        invariant breaker.log == log + Events(turns, sends)
        invariant breaker.View() == Run(b, Events(turns, sends))
        invariant Going(b, turns, sends)
        invariant result == Answer(turns, sends, false)
        invariant attempt <= maxRetries <==> sends < Cap(maxRetries, idempotent)
        decreases maxRetries - attempt
      {
        var turn := turns[sends];
        result := PlayTurn(turns, sends, b, log);
        if result == Raised(CircuitOpen) {
          IsRefused(b, turns, maxRetries, idempotent, sends);
          return;
        }
        sends := sends + 1;
        if turn.outcome.Response? || (!idempotent && attempt > 0) || !Retryable(turn.outcome) {
          Stops(b, turns, maxRetries, idempotent, sends);
          return;
        }
        attempt := attempt + 1;
      }
      Stops(b, turns, maxRetries, idempotent, sends);
    }
  }
}
