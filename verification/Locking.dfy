/** The same sessions, had the ledger locked the row it reads, as record_spend does for the
    token (app/services/token_service.py). */
module Locking {
  import opened Interleaving

  function Holders(sessions: seq<Session>): nat {
    if sessions == [] then 0
    else Holders(sessions[..|sessions| - 1]) + if sessions[|sessions| - 1].Holding? then 1 else 0
  }

  lemma {:induction false} HoldersUpdate(sessions: seq<Session>, c: SessionId, me: Session)
    requires c < |sessions|
    ensures Holders(sessions[c := me]) ==
            Holders(sessions) + (if me.Holding? then 1 else 0) - (if sessions[c].Holding? then 1 else 0)
  {
    var n := |sessions| - 1;
    if c == n {
      assert sessions[c := me][..n] == sessions[..n];
    } else {
      assert sessions[c := me][..n] == sessions[..n][c := me];
      HoldersUpdate(sessions[..n], c, me);
    }
  }

  lemma {:induction false} HolderCounts(sessions: seq<Session>, c: SessionId)
    requires c < |sessions| && sessions[c].Holding?
    ensures Holders(sessions) >= 1
  {
    if c < |sessions| - 1 {
      HolderCounts(sessions[..|sessions| - 1], c);
    }
  }

  /** With with_for_update this read would wait, until no other session holds the row. */
  predicate Waits(t: Table, a: Action) {
    a.Reads? && Holders(t.sessions) > 0
  }

  /** A read waits iff some session, its own included, holds the row. */
  lemma {:induction false} WaitsIff(t: Table, a: Action)
    ensures Waits(t, a) <==> a.Reads? && exists c :: 0 <= c < |t.sessions| && t.sessions[c].Holding?
  {
    if Holders(t.sessions) > 0 {
      SomeHolder(t.sessions);
    } else if c :| 0 <= c < |t.sessions| && t.sessions[c].Holding? {
      HolderCounts(t.sessions, c);
    }
  }

  lemma {:induction false} SomeHolder(sessions: seq<Session>)
    requires Holders(sessions) > 0
    ensures exists c :: 0 <= c < |sessions| && sessions[c].Holding?
  {
    var n := |sessions| - 1;
    if !sessions[n].Holding? {
      SomeHolder(sessions[..n]);
      var c :| 0 <= c < n && sessions[..n][c].Holding?;
      assert sessions[c].Holding?;
    }
  }

  ghost predicate NeverWaits(t: Table, actions: seq<Action>)
    requires Schedule(t, actions)
    decreases |actions|
  {
    actions == [] || (!Waits(t, actions[0]) && NeverWaits(Act(t, actions[0]), actions[1..]))
  }

  predicate Current(t: Table, c: SessionId)
    requires c < |t.sessions|
  {
    t.sessions[c].Holding? ==> t.sessions[c].seen == t.available
  }

  /** At most one session holds the row, and what it has read is current. */
  ghost predicate Exclusive(t: Table) {
    Holders(t.sessions) <= 1 && forall c: SessionId | c < |t.sessions| :: Current(t, c)
  }

  lemma {:induction false} ActKeepsExclusive(t: Table, a: Action)
    requires Exclusive(t) && Enabled(t, a) && !Waits(t, a)
    ensures Exclusive(Act(t, a)) && !Stale(t, a)
    ensures 0 <= t.available ==> 0 <= Act(t, a).available
  {
    var c := a.session;
    var t' := Act(t, a);
    assert Current(t, c);
    HoldersUpdate(t.sessions, c, t'.sessions[c]);
    forall d: SessionId | d < |t'.sessions| ensures Current(t', d) {
      assert Current(t, d);
      if d != c && t'.sessions[d].Holding? && t'.available != t.available {
        HolderCounts(t'.sessions, d);
        assert false;
      }
    }
  }

  /** Had the ledger locked the row it reads, as record_spend does for the token, every
      interleaving of any number of sessions would keep balance and entries in line, and the
      balance from going negative. */
  lemma {:induction false} LockKeepsAudited(t: Table, actions: seq<Action>)
    requires Exclusive(t) && Audited(t) && 0 <= t.available
    requires Schedule(t, actions) && NeverWaits(t, actions)
    ensures AuditedThroughout(t, actions) && 0 <= Play(t, actions).available
    decreases |actions|
  {
    if actions != [] {
      hide Exclusive, Audited, Act;
      ActKeepsExclusive(t, actions[0]);
      ActKeepsAuditedIff(t, actions[0]);
      LockKeepsAudited(Act(t, actions[0]), actions[1..]);
    }
  }
}
