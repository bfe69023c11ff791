/** The periodic sweeps (app/workers/token_expiry_worker.py, token_cutoff_worker.py,
    TokenRepository.expire_tokens) and the integrity check over their results. */
module Sweeps {
  import opened Types
  import opened Sums
  import opened Ledger
  import opened Tokens
  import opened Coupling

  // ------------------------------------------------------------ row by row

  function WithStatus(row: Token, hit: bool, status: Status): Token {
    if hit then row.(status := status) else row
  }

  lemma {:induction false} ExpireRowsTokens(b: Bank, rows: seq<TokenId>, t: TokenId)
    requires Rows(rows, b.tokens) && t < |b.tokens|
    ensures ExpireRows(b, rows).tokens[t] == WithStatus(b.tokens[t], t in rows, Expired)
  {
    if rows != [] {
      var n := |rows| - 1;
      assert rows == rows[..n] + [rows[n]];
      ExpireRowsTokens(b, rows[..n], t);
    }
  }

  lemma {:induction false} CutoffRowsTokens(b: Bank, rows: seq<TokenId>, t: TokenId)
    requires Rows(rows, b.tokens) && t < |b.tokens|
    ensures CutoffRows(b, rows).tokens[t] == WithStatus(b.tokens[t], t in rows, SpendLocked)
  {
    if rows != [] {
      var n := |rows| - 1;
      assert rows == rows[..n] + [rows[n]];
      CutoffRowsTokens(b, rows[..n], t);
    }
  }

  lemma {:induction false} CutoffRowsLedger(b: Bank, rows: seq<TokenId>)
    requires Rows(rows, b.tokens)
    ensures CutoffRows(b, rows).balances == b.balances && CutoffRows(b, rows).entries == b.entries
  {
    if rows != [] {
      CutoffRowsLedger(b, rows[..|rows| - 1]);
    }
  }

  // ---------------------------------------------------------- expiry sweep

  /** Every live row swept is paid in full: the sweep keeps the tables backed and coupled,
      and the total it reports, a sum of unclamped amounts, is the exact rise of all that
      is available and the exact fall of all that is locked. */
  lemma {:induction false} ExpireRowsPaysReported(b: Bank, rows: seq<TokenId>)
    requires Backed(b) && Rows(rows, b.tokens)
    requires forall i | 0 <= i < |rows| :: b.tokens[rows[i]].Open()
    ensures var b' := ExpireRows(b, rows);
            && Backed(b') && (Coupled(b) ==> Coupled(b'))
            && Total(b'.balances, Available) == Total(b.balances, Available) + ReportedRefund(b.tokens, rows)
            && Total(b'.balances, Locked) == Total(b.balances, Locked) - ReportedRefund(b.tokens, rows)
  {
    hide Backed, Coupled, Close, Total;
    if rows != [] {
      var n := |rows| - 1;
      var t := rows[n];
      ExpireRowsPaysReported(b, rows[..n]);
      var front := ExpireRows(b, rows[..n]);
      ExpireRowsTokens(b, rows[..n], t);
      assert front.tokens[t] == b.tokens[t];
      CloseTotals(front, t, Expired);
      ClampIdle(front, t);
      CloseKeepsBacked(front, t, Expired);
      if Coupled(b) {
        CloseKeeps(front, t, Expired);
      }
    }
  }

  /** The same per user: each owner gets back exactly what their swept tokens left unspent. */
  function UnusedOf(tokens: seq<Token>, rows: seq<TokenId>, u: UserId): int
    requires forall i | 0 <= i < |rows| :: rows[i] < |tokens|
  {
    if rows == [] then 0
    else
      var row := tokens[rows[|rows| - 1]];
      UnusedOf(tokens, rows[..|rows| - 1], u) + if row.user == u then row.Unused() else 0
  }

  lemma {:induction false} ExpireRowsPaysOwner(b: Bank, rows: seq<TokenId>, u: UserId)
    requires Backed(b) && Rows(rows, b.tokens)
    requires forall i | 0 <= i < |rows| :: b.tokens[rows[i]].Open()
    ensures Row(ExpireRows(b, rows), u).available == Row(b, u).available + UnusedOf(b.tokens, rows, u)
    ensures Row(ExpireRows(b, rows), u).locked == Row(b, u).locked - UnusedOf(b.tokens, rows, u)
  {
    if rows != [] {
      var n := |rows| - 1;
      var t := rows[n];
      var front := ExpireRows(b, rows[..n]);
      ExpireRowsPaysOwner(b, rows[..n], u);
      ExpireRowsPaysReported(b, rows[..n]);
      ExpireRowsTokens(b, rows[..n], t);
      ClampIdle(front, t);
      CloseRow(front, t, Expired, u);
    }
  }

  lemma {:induction false} CutoffKeeps(b: Bank, rows: seq<TokenId>)
    requires Coupled(b) && Rows(rows, b.tokens)
    requires forall i | 0 <= i < |rows| :: b.tokens[rows[i]].status.Active?
    ensures Coupled(CutoffRows(b, rows))
  {
    if rows != [] {
      var n := |rows| - 1;
      var t := rows[n];
      CutoffKeeps(b, rows[..n]);
      CutoffRowsTokens(b, rows[..n], t);
      LiveUpdateKeeps(CutoffRows(b, rows[..n]), t, b.tokens[t].(status := SpendLocked));
    }
  }

  // --------------------------------------------------- what each sweep touches

  lemma {:induction false} UntouchedOwner(b: Bank, rows: seq<TokenId>, u: UserId)
    requires Rows(rows, b.tokens) && forall i | 0 <= i < |rows| :: b.tokens[rows[i]].user != u
    ensures Row(ExpireRows(b, rows), u) == Row(b, u)
  {
    if rows != [] {
      var n := |rows| - 1;
      var front := ExpireRows(b, rows[..n]);
      UntouchedOwner(b, rows[..n], u);
      ExpireRowsTokens(b, rows[..n], rows[n]);
      CloseRow(front, rows[n], Expired, u);
    }
  }

  /** The expiry sweep expires exactly the tokens that are active or spend-locked and whose
      expiry has passed, and touches no balance but those of their owners. */
  lemma {:induction false} ExpirySweepDoes(b: Bank, rows: seq<TokenId>, now: Instant, t: TokenId, u: UserId)
    requires Selects(ExpirySweep, rows, b.tokens, now)
    ensures var b' := ExpireRows(b, rows);
            && |b'.tokens| == |b.tokens|
            && (t < |b.tokens| ==>
                  var row := b.tokens[t];
                  b'.tokens[t] == if row.expiresAt < now && row.status in {Active, SpendLocked}
                                  then row.(status := Expired) else row)
            && ((forall s: TokenId | s < |b.tokens| && b.tokens[s].user == u ::
                   !(b.tokens[s].expiresAt < now && b.tokens[s].status in {Active, SpendLocked}))
                ==> Row(b', u) == Row(b, u))
  {
    if t < |b.tokens| {
      ExpireRowsTokens(b, rows, t);
    }
    if forall s: TokenId | s < |b.tokens| && b.tokens[s].user == u ::
         !(b.tokens[s].expiresAt < now && b.tokens[s].status in {Active, SpendLocked})
    {
      forall i | 0 <= i < |rows| ensures b.tokens[rows[i]].user != u {
        assert rows[i] in rows;
      }
      UntouchedOwner(b, rows, u);
    }
  }

  /** The cutoff sweep spend-locks exactly the active tokens whose cutoff has passed, and
      touches no balance and no entry. */
  lemma {:induction false} CutoffSweepDoes(b: Bank, rows: seq<TokenId>, now: Instant, t: TokenId)
    requires Selects(CutoffSweep, rows, b.tokens, now)
    ensures var b' := CutoffRows(b, rows);
            && b'.balances == b.balances && b'.entries == b.entries && |b'.tokens| == |b.tokens|
            && (t < |b.tokens| ==>
                  var row := b.tokens[t];
                  b'.tokens[t] == if row.cutoff < now && row.status == Active
                                  then row.(status := SpendLocked) else row)
  {
    CutoffRowsLedger(b, rows);
    if t < |b.tokens| {
      CutoffRowsTokens(b, rows, t);
    }
  }

  /** The bulk expiry expires exactly the active tokens whose expiry has passed, and refunds
      nobody. */
  lemma {:induction false} BulkExpireDoes(b: Bank, now: Instant, t: TokenId)
    ensures var b' := BulkExpire(b, now);
            && b'.balances == b.balances && b'.entries == b.entries && |b'.tokens| == |b.tokens|
            && (t < |b.tokens| ==>
                  var row := b.tokens[t];
                  b'.tokens[t] == if row.expiresAt < now && row.status == Active
                                  then row.(status := Expired) else row)
  {
  }

  // ------------------------------------------------- the two sweeps together

  /** What a close writes depends on the row only through owner, amount and used. */
  lemma {:induction false} CloseIgnoresStatus(b: Bank, b': Bank, t: TokenId)
    requires t < |b.tokens| && t < |b'.tokens| && b.balances == b'.balances && b.entries == b'.entries
    requires b'.tokens[t] == b.tokens[t].(status := b'.tokens[t].status)
    ensures Close(b', t, Expired).balances == Close(b, t, Expired).balances
    ensures Close(b', t, Expired).entries == Close(b, t, Expired).entries
  {
  }

  /** So a prior cutoff sweep changes nothing in what the expiry sweep writes. */
  lemma {:induction false} ExpireAfterCutoff(b: Bank, cut: seq<TokenId>, rows: seq<TokenId>)
    requires Rows(cut, b.tokens) && Rows(rows, b.tokens)
    ensures ExpireRows(CutoffRows(b, cut), rows).balances == ExpireRows(b, rows).balances
    ensures ExpireRows(CutoffRows(b, cut), rows).entries == ExpireRows(b, rows).entries
  {
    var locked := CutoffRows(b, cut);
    if rows == [] {
      CutoffRowsLedger(b, cut);
    } else {
      var n := |rows| - 1;
      var front, t := rows[..n], rows[n];
      ExpireAfterCutoff(b, cut, front);
      ExpireRowsTokens(b, front, t);
      ExpireRowsTokens(locked, front, t);
      CutoffRowsTokens(b, cut, t);
      CloseIgnoresStatus(ExpireRows(b, front), ExpireRows(locked, front), t);
    }
  }

  /** At one instant the sweeps commute, whatever order the queries list the rows in.
      The expiry query even returns the same rows before and after the cutoff sweep. */
  lemma {:induction false} SweepsCommute(b: Bank, cut: seq<TokenId>, cut': seq<TokenId>, rows: seq<TokenId>,
          now: Instant)
    requires Selects(CutoffSweep, cut, b.tokens, now)
    requires Selects(ExpirySweep, rows, b.tokens, now)
    requires Selects(CutoffSweep, cut', ExpireRows(b, rows).tokens, now)
    ensures Selects(ExpirySweep, rows, CutoffRows(b, cut).tokens, now)
    ensures CutoffRows(ExpireRows(b, rows), cut') == ExpireRows(CutoffRows(b, cut), rows)
  {
    var locked, expired := CutoffRows(b, cut), ExpireRows(b, rows);
    var left, right := CutoffRows(expired, cut'), ExpireRows(locked, rows);
    forall t: TokenId | t < |b.tokens|
      ensures t in rows <==> Due(ExpirySweep, locked.tokens[t], now)
      ensures left.tokens[t] == right.tokens[t]
    {
      CutoffRowsTokens(b, cut, t);
      ExpireRowsTokens(b, rows, t);
      CutoffRowsTokens(expired, cut', t);
      ExpireRowsTokens(locked, rows, t);
    }
    ExpireAfterCutoff(b, cut, rows);
    CutoffRowsLedger(expired, cut');
    assert left.tokens == right.tokens;
  }

  lemma {:induction false} HasRow(rows: seq<TokenId>)
    ensures rows == [] || exists t: TokenId :: t in rows
  {
    if rows != [] {
      assert rows[0] in rows;
    }
  }

  /** After both sweeps nothing live is past its expiry and nothing active past its
      cutoff, and a second run of either at that instant selects nothing. */
  lemma {:induction false} SweepsSettle(b: Bank, cut: seq<TokenId>, rows: seq<TokenId>, now: Instant)
    requires Selects(CutoffSweep, cut, b.tokens, now)
    requires Selects(ExpirySweep, rows, CutoffRows(b, cut).tokens, now)
    ensures var swept := ExpireRows(CutoffRows(b, cut), rows);
            && (forall t: TokenId | t < |swept.tokens| :: swept.tokens[t].Open() ==> now <= swept.tokens[t].expiresAt)
            && (forall t: TokenId | t < |swept.tokens| :: swept.tokens[t].status.Active? ==>
                    now <= swept.tokens[t].cutoff)
            && (forall again | Selects(CutoffSweep, again, swept.tokens, now) :: again == [])
            && (forall again | Selects(ExpirySweep, again, swept.tokens, now) :: again == [])
  {
    var locked := CutoffRows(b, cut);
    var swept := ExpireRows(locked, rows);
    forall t: TokenId | t < |swept.tokens|
      ensures !PastExpiry(swept.tokens[t], now) && !PastCutoff(swept.tokens[t], now)
    {
      CutoffRowsTokens(b, cut, t);
      ExpireRowsTokens(locked, rows, t);
    }
    forall again: seq<TokenId>, sweep | Selects(sweep, again, swept.tokens, now)
      ensures again == []
    {
      HasRow(again);
    }
  }

  // ------------------------------------------------------ bulk expiry, no refund

  lemma {:induction false} HeldByShrinks(tokens: seq<Token>, tokens': seq<Token>, u: UserId)
    requires |tokens| == |tokens'|
    requires forall t | 0 <= t < |tokens| ::
               tokens'[t].user == tokens[t].user && tokens'[t].Held() <= tokens[t].Held()
    ensures HeldBy(tokens', u) <= HeldBy(tokens, u)
    ensures HeldBy(tokens', u) == HeldBy(tokens, u) <==>
            forall t | 0 <= t < |tokens| && tokens[t].user == u :: tokens'[t].Held() == tokens[t].Held()
  {
    if tokens != [] {
      var n := |tokens| - 1;
      HeldByShrinks(tokens[..n], tokens'[..n], u);
      assert forall t | 0 <= t < n :: tokens[..n][t] == tokens[t] && tokens'[..n][t] == tokens'[t];
    }
  }

  lemma {:induction false} CutoffKeepsBacked(b: Bank, rows: seq<TokenId>)
    requires Backed(b) && Rows(rows, b.tokens)
    requires forall i | 0 <= i < |rows| :: b.tokens[rows[i]].status.Active?
    ensures Backed(CutoffRows(b, rows))
  {
    if rows != [] {
      var n := |rows| - 1;
      var t := rows[n];
      CutoffKeepsBacked(b, rows[..n]);
      CutoffRowsTokens(b, rows[..n], t);
      LiveUpdateKeepsBacked(CutoffRows(b, rows[..n]), t, b.tokens[t].(status := SpendLocked));
    }
  }

  /** Expiring without a refund loses the user's money but leaves the tokens backed. */
  lemma {:induction false} BulkExpireKeepsBacked(b: Bank, now: Instant)
    requires Backed(b)
    ensures Backed(BulkExpire(b, now))
  {
    var b' := BulkExpire(b, now);
    forall u: UserId ensures Backs(b', u) {
      assert Backs(b, u);
      HeldByShrinks(b.tokens, b'.tokens, u);
    }
  }

  /** Every row the bulk expiry hits is fully spent. */
  predicate NothingLost(b: Bank, now: Instant) {
    forall t | 0 <= t < |b.tokens| ::
      b.tokens[t].status.Active? && b.tokens[t].expiresAt < now ==> b.tokens[t].Unused() == 0
  }

  lemma {:induction false} BulkExpireRest(b: Bank, now: Instant)
    requires Coupled(b) && NothingLost(b, now)
    ensures TokensSound(BulkExpire(b, now).tokens) && RefundsExact(BulkExpire(b, now))
  {
    var b' := BulkExpire(b, now);
    forall t: TokenId | t < |b.tokens| ensures RefundMatches(b', t) {
      assert RefundMatches(b, t);
    }
  }

  /** TokenRepository.expire_tokens expires without a refund: it keeps the tables coupled,
      and `locked` right, only when every row it hits is fully spent; otherwise the unspent
      part stays locked for good. */
  lemma {:induction false} BulkExpireKeepsIff(b: Bank, now: Instant)
    requires Coupled(b)
    ensures Coupled(BulkExpire(b, now)) <==> NothingLost(b, now)
    ensures LockedCovers(BulkExpire(b, now)) <==> NothingLost(b, now)
  {
    var b' := BulkExpire(b, now);
    forall u: UserId
      ensures Covered(b', u) <==>
              forall t | 0 <= t < |b.tokens| && b.tokens[t].user == u :: b'.tokens[t].Held() == b.tokens[t].Held()
    {
      assert Covered(b, u);
      HeldByShrinks(b.tokens, b'.tokens, u);
    }
    forall t | 0 <= t < |b.tokens|
      ensures b'.tokens[t].Held() == b.tokens[t].Held() <==>
              (b.tokens[t].status.Active? && b.tokens[t].expiresAt < now ==> b.tokens[t].Unused() == 0)
    {
    }
    if LockedCovers(b') {
      forall t | 0 <= t < |b.tokens| ensures b'.tokens[t].Held() == b.tokens[t].Held() {
        assert Covered(b', b.tokens[t].user);
      }
    }
    if NothingLost(b, now) {
      BulkExpireRest(b, now);
      LedgerIgnoresTokens(b, b');
    }
  }

  // ----------------------------------------------------------- integrity check

  /** verify_balance_integrity compares the entries, which re-derive `available`, with
      available plus locked: it passes exactly when nothing is locked, which with coupled
      tables is when every token of the user is closed without having been spent. */
  lemma {:induction false} IntegrityCheckMeaning(b: Bank, u: UserId)
    requires LedgerSound(b)
    ensures Reconciles(b, u) <==> Row(b, u).locked == 0
    ensures Coupled(b) ==>
              (Reconciles(b, u) <==> forall t | 0 <= t < |b.tokens| && b.tokens[t].user == u ::
                 b.tokens[t].Closed() && b.tokens[t].used == 0)
  {
    assert Derived(b, u);
    CreditsLessDebits(b.entries, u);
    if Coupled(b) {
      assert Covered(b, u);
      HeldByZero(b.tokens, u);
    }
  }
}
