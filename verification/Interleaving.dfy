/** The ledger's read-modify-write of one balance row by interleaved sessions
    (app/services/ledger_service.py): each reads the row, changes what it read, and writes
    that back with an entry.  Everywhere else in this model sessions are serial. */
module Interleaving {
  type SessionId = nat

  /** A session between its read and its write; a debit has a negative amount. */
  datatype Session = Idle | Holding(seen: int, amount: int)

  /** One user's available balance and the signed amounts of the user's entries. */
  datatype Table = Table(available: int, entries: seq<int>, sessions: seq<Session>)

  datatype Action = Reads(session: SessionId, amount: int) | Writes(session: SessionId)

  predicate Enabled(t: Table, a: Action) {
    && a.session < |t.sessions|
    && (a.Reads? <==> t.sessions[a.session].Idle?)
  }

  /** The check for funds is made on what was read. */
  predicate Refused(t: Table, a: Action)
    requires Enabled(t, a) && a.Writes?
  {
    var me := t.sessions[a.session];
    me.amount == 0 || (me.amount < 0 && me.seen + me.amount < 0)
  }

  function Act(t: Table, a: Action): Table
    requires Enabled(t, a)
  {
    match a
    case Reads(c, amount) => t.(sessions := t.sessions[c := Holding(t.available, amount)])
    case Writes(c) =>
      var me := t.sessions[c];
      var done := t.(sessions := t.sessions[c := Idle]);
      if Refused(t, a) then done
      else done.(available := me.seen + me.amount, entries := t.entries + [me.amount])
  }

  /** A credit is always granted, a debit if what was read covers it; what is granted is
      written over the row, whatever that holds by now. */
  lemma {:induction false} WriteDoes(t: Table, c: SessionId)
    requires Enabled(t, Writes(c))
    ensures var t' := Act(t, Writes(c));
            var Holding(seen, amount) := t.sessions[c];
            && t'.sessions == t.sessions[c := Idle]
            && if 0 < amount || (amount < 0 && 0 <= seen + amount) then
                 t'.available == seen + amount && t'.entries == t.entries + [amount]
               else t'.available == t.available && t'.entries == t.entries
  {
  }

  function Sum(entries: seq<int>): int {
    if entries == [] then 0 else Sum(entries[..|entries| - 1]) + entries[|entries| - 1]
  }

  lemma {:induction false} SumAppend(entries: seq<int>, amount: int)
    ensures Sum(entries + [amount]) == Sum(entries) + amount
  {
    assert (entries + [amount])[..|entries|] == entries;
  }

  /** What is available is what the entries say. */
  predicate Audited(t: Table) {
    t.available == Sum(t.entries)
  }

  ghost predicate Schedule(t: Table, actions: seq<Action>)
    decreases |actions|
  {
    actions == [] || (Enabled(t, actions[0]) && Schedule(Act(t, actions[0]), actions[1..]))
  }

  ghost function Play(t: Table, actions: seq<Action>): Table
    requires Schedule(t, actions)
    decreases |actions|
  {
    if actions == [] then t else Play(Act(t, actions[0]), actions[1..])
  }

  // ------------------------------------------------------------- without a lock

  /** A write over a row that has changed since it was read. */
  predicate Stale(t: Table, a: Action)
    requires Enabled(t, a)
  {
    a.Writes? && !Refused(t, a) && t.sessions[a.session].seen != t.available
  }

  /** A step keeps the row in line with the entries if and only if it is not such a write. */
  lemma {:induction false} ActKeepsAuditedIff(t: Table, a: Action)
    requires Enabled(t, a) && Audited(t)
    ensures Audited(Act(t, a)) <==> !Stale(t, a)
  {
    if a.Writes? && !Refused(t, a) {
      SumAppend(t.entries, t.sessions[a.session].amount);
    }
  }

  ghost predicate NeverStale(t: Table, actions: seq<Action>)
    requires Schedule(t, actions)
    decreases |actions|
  {
    actions == [] || (!Stale(t, actions[0]) && NeverStale(Act(t, actions[0]), actions[1..]))
  }

  ghost predicate AuditedThroughout(t: Table, actions: seq<Action>)
    requires Schedule(t, actions)
    decreases |actions|
  {
    Audited(t) && (actions == [] || AuditedThroughout(Act(t, actions[0]), actions[1..]))
  }

  /** So an interleaving keeps balances and entries in line throughout if and only if it has
      no write over a row that has changed since it was read. */
  lemma {:induction false} AuditedIffNeverStale(t: Table, actions: seq<Action>)
    requires Schedule(t, actions) && Audited(t)
    ensures AuditedThroughout(t, actions) <==> NeverStale(t, actions)
    decreases |actions|
  {
    if actions != [] {
      ActKeepsAuditedIff(t, actions[0]);
      if !Stale(t, actions[0]) {
        AuditedIffNeverStale(Act(t, actions[0]), actions[1..]);
      } else {
        NotThroughout(Act(t, actions[0]), actions[1..]);
      }
    }
  }

  lemma {:induction false} NotThroughout(t: Table, actions: seq<Action>)
    requires Schedule(t, actions) && !Audited(t)
    ensures !AuditedThroughout(t, actions)
  {
  }

  // ------------------------------------------------------------ a lost update

  /** Two debits of all there is, both reading before either writes. */
  const DOUBLE_DEBIT := [Reads(0, -100), Reads(1, -100), Writes(0), Writes(1)]

  /** Both are granted: the row says that nothing is left, the entries that twice as much
      was paid as there was. */
  lemma {:induction false} BothDebitsGranted()
    ensures var t := Table(100, [100], [Idle, Idle]);
            && Audited(t) && Schedule(t, DOUBLE_DEBIT)
            && Play(t, DOUBLE_DEBIT).available == 0
            && Play(t, DOUBLE_DEBIT).entries == [100, -100, -100]
            && Sum([100, -100, -100]) == -100
  {
    SumAppend([], 100);
    assert [] + [100] == [100];
    SumAppend([100], -100);
    assert [100] + [-100] == [100, -100];
    SumAppend([100, -100], -100);
    assert [100, -100] + [-100] == [100, -100, -100];
    var t := Table(100, [100], [Idle, Idle]);
    var t1 := Act(t, DOUBLE_DEBIT[0]);
    var t2 := Act(t1, DOUBLE_DEBIT[1]);
    var t3 := Act(t2, DOUBLE_DEBIT[2]);
    var t4 := Act(t3, DOUBLE_DEBIT[3]);
    assert Schedule(t4, DOUBLE_DEBIT[4..]) && Play(t4, DOUBLE_DEBIT[4..]) == t4;
    assert Schedule(t3, DOUBLE_DEBIT[3..]) && Play(t3, DOUBLE_DEBIT[3..]) == t4;
    assert Schedule(t2, DOUBLE_DEBIT[2..]) && Play(t2, DOUBLE_DEBIT[2..]) == t4;
    assert Schedule(t1, DOUBLE_DEBIT[1..]) && Play(t1, DOUBLE_DEBIT[1..]) == t4;
  }
}
