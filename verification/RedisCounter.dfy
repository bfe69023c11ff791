/** The WATCH/MULTI counter of app/core/redis.py: any number of clients running
    increment_token_spending on one key, interleaved at every Redis command. */
module RedisCounter {
  import opened Types

  type ClientId = nat

  /** One successful SET of the key. */
  datatype Write = Write(client: ClientId, amount: int)

  /** Where a client is in its call.  `seen` is how many SETs the key had at WATCH. */
  datatype Phase =
    | Idle
    | Starting
    | Watching(seen: nat)
    | Holding(seen: nat, current: int)

  /** `start` is how many SETs the key had when the call began, `answer` the last result. */
  datatype Client = Client(phase: Phase, amount: int, retries: nat, start: nat, answer: Option<(bool, int)>)

  /** The key's value, the SETs that led to it, and the clients. */
  datatype Shared = Shared(limit: int, value: int, writes: seq<Write>, clients: seq<Client>)

  datatype Action =
    | Begin(client: ClientId, amount: int)
    | Watch(client: ClientId)
    | Get(client: ClientId)
    | Decide(client: ClientId)

  predicate Enabled(s: Shared, a: Action) {
    && a.client < |s.clients|
    && var phase := s.clients[a.client].phase;
       match a
       case Begin(_, _) => phase.Idle?
       case Watch(_) => phase.Starting?
       case Get(_) => phase.Watching?
       case Decide(_) => phase.Holding?
  }

  function Put(s: Shared, c: ClientId, client: Client): Shared
    requires c < |s.clients|
  {
    s.(clients := s.clients[c := client])
  }

  /** EXEC runs the SET only if no SET of the key came after this client's WATCH. */
  function Act(s: Shared, a: Action): Shared
    requires Enabled(s, a)
  {
    var c := a.client;
    var me := s.clients[c];
    match a
    case Begin(_, amount) => Put(s, c, Client(Starting, amount, 0, |s.writes|, None))
    case Watch(_) => Put(s, c, me.(phase := Watching(|s.writes|)))
    case Get(_) => Put(s, c, me.(phase := Holding(me.phase.seen, s.value)))
    case Decide(_) =>
      var total := me.phase.current + me.amount;
      if total > s.limit then Put(s, c, me.(phase := Idle, answer := Some((false, me.phase.current))))
      else if me.phase.seen == |s.writes| then
        Put(s.(value := total, writes := s.writes + [Write(c, me.amount)]), c,
            me.(phase := Idle, answer := Some((true, total))))
      else Put(s, c, me.(phase := Starting, retries := me.retries + 1))
  }

  function Sum(writes: seq<Write>): int {
    if writes == [] then 0 else Sum(writes[..|writes| - 1]) + writes[|writes| - 1].amount
  }

  lemma {:induction false} SumAppend(writes: seq<Write>, w: Write)
    ensures Sum(writes + [w]) == Sum(writes) + w.amount
  {
    assert (writes + [w])[..|writes|] == writes;
  }

  ghost predicate Quiet(s: Shared, c: ClientId, from: nat) {
    forall i | from <= i < |s.writes| :: s.writes[i].client != c
  }

  /** What is known about one client, whatever the others do. */
  ghost predicate ClientOk(s: Shared, c: ClientId)
    requires c < |s.clients|
  {
    var me := s.clients[c];
    match me.phase
    case Idle => true
    case Starting => me.start + me.retries <= |s.writes| && Quiet(s, c, me.start)
    case Watching(seen) => me.start + me.retries <= seen <= |s.writes| && Quiet(s, c, me.start)
    case Holding(seen, current) =>
      && me.start + me.retries <= seen <= |s.writes| && Quiet(s, c, me.start)
      && current <= s.value
      && (seen == |s.writes| ==> current == s.value)
  }

  /** The value is the sum of the successful increments and within the limit. */
  ghost predicate Safe(s: Shared) {
    && s.value == Sum(s.writes)
    && 0 <= s.value <= s.limit
    && (forall i | 0 <= i < |s.writes| :: 0 <= s.writes[i].amount)
    && (forall c | 0 <= c < |s.clients| :: 0 <= s.clients[c].amount && ClientOk(s, c))
  }

  /** Amounts are not negative. */
  predicate Sensible(a: Action) {
    a.Begin? ==> 0 <= a.amount
  }

  /** What a client does to itself leaves what is known about the others alone. */
  lemma {:induction false} PutKeepsSafe(s: Shared, c: ClientId, client: Client)
    requires Safe(s) && c < |s.clients| && 0 <= client.amount && ClientOk(Put(s, c, client), c)
    ensures Safe(Put(s, c, client))
  {
    hide Sum;
    var s' := Put(s, c, client);
    forall d | 0 <= d < |s'.clients| ensures 0 <= s'.clients[d].amount && ClientOk(s', d) {
      assert ClientOk(s, d);
    }
  }

  /** A SET by one client, which is done with its call then. */
  function Written(s: Shared, c: ClientId, total: int, client: Client): Shared
    requires c < |s.clients|
  {
    Put(s.(value := total, writes := s.writes + [Write(c, s.clients[c].amount)]), c, client)
  }

  /** No client minds the SET of another: it is not its own, and it came after its WATCH. */
  lemma {:induction false} WrittenKeepsOther(s: Shared, c: ClientId, total: int, client: Client, d: ClientId)
    requires c < |s.clients| && d < |s.clients| && ClientOk(s, d) && s.value <= total
    requires d == c ==> client.phase.Idle?
    ensures ClientOk(Written(s, c, total, client), d)
  {
  }

  lemma {:induction false} WrittenKeepsSafe(s: Shared, c: ClientId, total: int, client: Client)
    requires Safe(s) && c < |s.clients| && client.phase.Idle? && 0 <= client.amount
    requires total == s.value + s.clients[c].amount <= s.limit
    ensures Safe(Written(s, c, total, client))
  {
    SumAppend(s.writes, Write(c, s.clients[c].amount));
    var s' := Written(s, c, total, client);
    forall d | 0 <= d < |s'.clients| ensures 0 <= s'.clients[d].amount && ClientOk(s', d) {
      hide Sum, Quiet;
      WrittenKeepsOther(s, c, total, client, d);
    }
    hide Sum, ClientOk;
  }

  lemma {:induction false} ActKeepsSafe(s: Shared, a: Action)
    requires Safe(s) && Enabled(s, a) && Sensible(a)
    ensures Safe(Act(s, a))
  {
    hide Sum;
    var c := a.client;
    var me := Act(s, a).clients[c];
    assert ClientOk(s, c);
    if Act(s, a).writes == s.writes {
      assert Act(s, a) == Put(s, c, me);
      PutKeepsSafe(s, c, me);
    } else {
      WrittenKeepsSafe(s, c, Act(s, a).value, me);
    }
  }

  ghost predicate Schedule(s: Shared, actions: seq<Action>)
    decreases |actions|
  {
    actions == [] || (Enabled(s, actions[0]) && Schedule(Act(s, actions[0]), actions[1..]))
  }

  ghost function Play(s: Shared, actions: seq<Action>): Shared
    requires Schedule(s, actions)
    decreases |actions|
  {
    if actions == [] then s else Play(Act(s, actions[0]), actions[1..])
  }

  function Initial(limit: int, n: nat): Shared {
    Shared(limit, 0, [], seq(n, _ => Client(Idle, 0, 0, 0, None)))
  }

  lemma {:induction false} PlayKeepsSafe(s: Shared, actions: seq<Action>)
    requires Safe(s) && Schedule(s, actions)
    requires forall i | 0 <= i < |actions| :: Sensible(actions[i])
    ensures Safe(Play(s, actions)) && Play(s, actions).limit == s.limit
    decreases |actions|
  {
    if actions != [] {
      ActKeepsSafe(s, actions[0]);
      PlayKeepsSafe(Act(s, actions[0]), actions[1..]);
    }
  }

  /** Under any interleaving of any number of clients the value is the sum of the
      increments that succeeded and never exceeds the limit. */
  lemma {:induction false} CounterIsSafe(limit: nat, n: nat, actions: seq<Action>)
    requires Schedule(Initial(limit, n), actions)
    requires forall i | 0 <= i < |actions| :: Sensible(actions[i])
    ensures var s := Play(Initial(limit, n), actions);
            s.value == Sum(s.writes) && s.value <= limit
  {
    PlayKeepsSafe(Initial(limit, n), actions);
  }

  /** Answers are true at the moment they are given: a success returns the value of the
      key, and what was refused would not fit now either. */
  lemma {:induction false} AnswersAreTrue(s: Shared, c: ClientId)
    requires Safe(s) && Enabled(s, Decide(c))
    ensures var s' := Act(s, Decide(c));
            var me := s'.clients[c];
            && (me.phase.Idle? && me.answer.value.0 ==>
                  me.answer.value.1 == s'.value == s.value + me.amount <= s'.limit)
            && (me.phase.Idle? && !me.answer.value.0 ==> s' == Put(s, c, me) && s.value + me.amount > s.limit)
  {
    assert ClientOk(s, c);
  }

  /** A retry is always another client's doing: one of them has set the key since this
      client's WATCH. */
  lemma {:induction false} RetryMeansOtherWrite(s: Shared, c: ClientId)
    requires Safe(s) && Enabled(s, Decide(c)) && Act(s, Decide(c)).clients[c].phase.Starting?
    ensures exists i :: s.clients[c].phase.seen <= i < |s.writes| && s.writes[i].client != c
  {
    assert ClientOk(s, c);
    assert s.writes[s.clients[c].phase.seen].client != c;
  }

  lemma {:induction false} SumGrows(writes: seq<Write>, k: nat)
    requires k <= |writes| && forall i | 0 <= i < |writes| :: 1 <= writes[i].amount
    ensures Sum(writes[..k]) + (|writes| - k) <= Sum(writes)
  {
    if k < |writes| {
      var n := |writes| - 1;
      assert writes[..n][..k] == writes[..k];
      SumGrows(writes[..n], k);
    } else {
      assert writes[..k] == writes;
    }
  }

  /** With amounts of at least one, what a call retries is paid for by the key's growth
      since the call began, and so never more than what was left below the limit. */
  lemma {:induction false} RetriesAreBounded(limit: nat, n: nat, actions: seq<Action>, c: ClientId)
    requires Schedule(Initial(limit, n), actions) && c < |Play(Initial(limit, n), actions).clients|
    requires forall i | 0 <= i < |actions| :: actions[i].Begin? ==> 1 <= actions[i].amount
    ensures var s := Play(Initial(limit, n), actions);
            var me := s.clients[c];
            !me.phase.Idle? ==>
              && me.start <= |s.writes|
              && me.retries <= s.value - Sum(s.writes[..me.start]) <= limit - Sum(s.writes[..me.start])
  {
    var s := Play(Initial(limit, n), actions);
    PlayKeepsSafe(Initial(limit, n), actions);
    PlayKeepsPositive(Initial(limit, n), actions);
    assert ClientOk(s, c);
    if !s.clients[c].phase.Idle? {
      SumGrows(s.writes, s.clients[c].start);
    }
  }

  ghost predicate Positive(s: Shared) {
    && (forall i | 0 <= i < |s.writes| :: 1 <= s.writes[i].amount)
    && (forall c | 0 <= c < |s.clients| :: !s.clients[c].phase.Idle? ==> 1 <= s.clients[c].amount)
  }

  lemma {:induction false} PlayKeepsPositive(s: Shared, actions: seq<Action>)
    requires Positive(s) && Schedule(s, actions)
    requires forall i | 0 <= i < |actions| :: actions[i].Begin? ==> 1 <= actions[i].amount
    ensures Positive(Play(s, actions))
    decreases |actions|
  {
    if actions != [] {
      PlayKeepsPositive(Act(s, actions[0]), actions[1..]);
    }
  }

  // ------------------------------------------------------------ without progress

  /** One round in which client 1 adds nothing between client 0's WATCH and EXEC. */
  const STARVE := [Watch(0), Get(0), Begin(1, 0), Watch(1), Get(1), Decide(1), Decide(0)]

  function Rounds(n: nat): seq<Action> {
    if n == 0 then [] else STARVE + Rounds(n - 1)
  }

  ghost predicate Starving(s: Shared) {
    && |s.clients| == 2 && 0 <= s.limit && s.value == 0
    && s.clients[0].phase.Starting? && s.clients[1].phase.Idle? && s.clients[0].amount == 0
  }

  lemma {:induction false} StarveRound(s: Shared)
    requires Starving(s)
    ensures Schedule(s, STARVE) && Starving(Play(s, STARVE))
    ensures Play(s, STARVE).clients[0].retries == s.clients[0].retries + 1
  {
    var s1 := Act(s, Watch(0));
    var s2 := Act(s1, Get(0));
    var s3 := Act(s2, Begin(1, 0));
    var s4 := Act(s3, Watch(1));
    var s5 := Act(s4, Get(1));
    var s6 := Act(s5, Decide(1));
    var s7 := Act(s6, Decide(0));
    assert Schedule(s7, STARVE[7..]) && Play(s7, STARVE[7..]) == s7;
    assert Schedule(s6, STARVE[6..]) && Play(s6, STARVE[6..]) == s7;
    assert Schedule(s5, STARVE[5..]) && Play(s5, STARVE[5..]) == s7;
    assert Schedule(s4, STARVE[4..]) && Play(s4, STARVE[4..]) == s7;
    assert Schedule(s3, STARVE[3..]) && Play(s3, STARVE[3..]) == s7;
    assert Schedule(s2, STARVE[2..]) && Play(s2, STARVE[2..]) == s7;
    assert Schedule(s1, STARVE[1..]) && Play(s1, STARVE[1..]) == s7;
  }

  lemma {:induction false} PlayConcat(s: Shared, first: seq<Action>, rest: seq<Action>)
    requires Schedule(s, first) && Schedule(Play(s, first), rest)
    ensures Schedule(s, first + rest) && Play(s, first + rest) == Play(Play(s, first), rest)
    decreases |first|
  {
    if first == [] {
      assert first + rest == rest;
    } else {
      PlayConcat(Act(s, first[0]), first[1..], rest);
      assert (first + rest)[1..] == first[1..] + rest;
    }
  }

  /** With amounts of zero there is no bound: a call can be made to retry n times for
      every n. */
  lemma {:induction false} ZeroAmountsStarve(s: Shared, n: nat)
    requires Starving(s)
    ensures Schedule(s, Rounds(n)) && Play(s, Rounds(n)).clients != []
    ensures Play(s, Rounds(n)).clients[0].retries == s.clients[0].retries + n
    decreases n
  {
    if n > 0 {
      StarveRound(s);
      ZeroAmountsStarve(Play(s, STARVE), n - 1);
      PlayConcat(s, STARVE, Rounds(n - 1));
    }
  }

  lemma {:induction false} RetriesUnboundedAtZero(limit: nat, n: nat)
    ensures var actions := [Begin(0, 0)] + Rounds(n);
            && Schedule(Initial(limit, 2), actions)
            && Play(Initial(limit, 2), actions).clients != []
            && Play(Initial(limit, 2), actions).clients[0].retries == n
  {
    var actions := [Begin(0, 0)] + Rounds(n);
    assert actions[1..] == Rounds(n);
    ZeroAmountsStarve(Act(Initial(limit, 2), Begin(0, 0)), n);
  }

  // ------------------------------------------------------------- one call, as code

  /** The key as one client sees it; `version` counts the SETs.  `mine` and `foreign`
      remember what this client and the others have successfully added. */
  class Key {
    var value: int
    var version: nat
    ghost var mine: int
    ghost var foreign: int

    constructor ()
      ensures Valid() && value == 0 && version == 0
    {
      value, version, mine, foreign := 0, 0, 0, 0;
    }

    ghost predicate Valid()
      reads this
    {
      value == mine + foreign
    }

    /** What other clients get done in between: each increment that fits is set. */
    method Interfere(amounts: seq<nat>, limit: int)
      requires Valid() && forall i | 0 <= i < |amounts| :: 1 <= amounts[i]
      modifies this
      ensures Valid() && mine == old(mine)
      ensures old(version) <= version && old(value) + (version - old(version)) <= value
      ensures version == old(version) ==> value == old(value)
      ensures value <= limit || value == old(value)
    {
      for i := 0 to |amounts|
        invariant Valid() && mine == old(mine)
        invariant old(version) <= version && old(value) + (version - old(version)) <= value
        invariant version == old(version) ==> value == old(value)
        invariant value <= limit || value == old(value)
      {
        if value + amounts[i] <= limit {
          value := value + amounts[i];
          version := version + 1;
          foreign := foreign + amounts[i];
        }
      }
    }
  }

  /** `others(i)` is what the rest of the system tries to add before this call's i-th
      command; the amount of this call may be zero.  The loop ends because every retry uses
      up some of limit - value, and no increment, this client's or another's, is ever lost. */
  method IncrementTokenSpending(key: Key, amount: nat, limit: int, others: nat -> seq<nat>)
    returns (ok: bool, total: int, retries: nat)
    requires key.Valid()
    requires forall i, j | 0 <= j < |others(i)| :: 1 <= others(i)[j]
    modifies key
    ensures key.Valid() && key.mine == old(key.mine) + if ok then amount else 0
    ensures ok ==> total == key.value <= limit && old(key.value) + amount + retries <= total
    ensures !ok ==> total + amount > limit && key.value + amount > limit
    ensures old(key.version) + retries <= key.version
    ensures 0 < retries ==> old(key.value) + retries <= limit
  {
    var command := 0;
    retries := 0;
    while true
      invariant key.Valid() && key.mine == old(key.mine)
      invariant old(key.version) + retries <= key.version
      invariant old(key.value) + (key.version - old(key.version)) <= key.value
      invariant key.value <= limit || key.value == old(key.value)
      invariant 0 < retries ==> key.value <= limit
      decreases limit - key.value
    {
      key.Interfere(others(command), limit);
      var watched := key.version;
      key.Interfere(others(command + 1), limit);
      var current := key.value;
      var sum := current + amount;
      if sum > limit {
        return false, current, retries;
      }
      key.Interfere(others(command + 2), limit);
      command := command + 3;
      if key.version == watched {
        key.value := sum;
        key.version := key.version + 1;
        key.mine := key.mine + amount;
        return true, sum, retries;
      }
      retries := retries + 1;
    }
  }
}
