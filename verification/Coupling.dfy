/** The invariant that ties balances, entries and tokens together, and what each
    operation does to it. */
module Coupling {
  import opened Types
  import opened Sums
  import opened Ledger
  import opened Tokens

  ghost predicate TokensSound(tokens: seq<Token>) {
    forall t | 0 <= t < |tokens| ::
      && 0 < tokens[t].amount
      && 0 <= tokens[t].used <= tokens[t].amount
      && (tokens[t].status.Exhausted? ==> tokens[t].used == tokens[t].amount)
  }

  ghost predicate Covered(b: Bank, u: UserId) {
    Row(b, u).locked == HeldBy(b.tokens, u)
  }

  /** `locked` is the whole amount of every live token plus the spent part of every closed one. */
  ghost predicate LockedCovers(b: Bank) {
    forall u: UserId :: Covered(b, u)
  }

  ghost predicate Carries(entries: seq<Entry>, i: nat)
    requires i < |entries|
  {
    entries[i].balanceAfter == Net(entries[..i + 1], entries[i].user)
  }

  ghost predicate Derived(b: Bank, u: UserId) {
    Row(b, u).available == Net(b.entries, u)
  }

  /** Each entry carries the signed sum up to itself, and the full sum is what is available. */
  ghost predicate Audited(b: Bank) {
    && (forall i: nat | i < |b.entries| :: Carries(b.entries, i))
    && (forall u: UserId :: Derived(b, u))
  }

  ghost predicate RefundMatches(b: Bank, t: TokenId)
    requires t < |b.tokens|
  {
    Refunded(b.entries, t) == if b.tokens[t].Closed() then b.tokens[t].Unused() else 0
  }

  /** Refund entries return exactly the unspent part of closed tokens, and nothing else. */
  ghost predicate RefundsExact(b: Bank) {
    && (forall t: TokenId | t < |b.tokens| :: RefundMatches(b, t))
    && (forall i | 0 <= i < |b.entries| :: b.entries[i].reference.Refund? ==>
            b.entries[i].reference.token < |b.tokens|)
  }

  /** Balances and entries agree, whatever the tokens say. */
  ghost predicate LedgerSound(b: Bank) {
    Audited(b) && Money(b) == ExternalNet(b.entries)
  }

  ghost predicate Coupled(b: Bank) {
    TokensSound(b.tokens) && LockedCovers(b) && RefundsExact(b) && LedgerSound(b)
  }

  ghost predicate Backs(b: Bank, u: UserId) {
    HeldBy(b.tokens, u) <= Row(b, u).locked
  }

  ghost predicate UsageBounded(tokens: seq<Token>) {
    forall t | 0 <= t < |tokens| :: 0 <= tokens[t].used <= tokens[t].amount
  }

  /** The weaker half of coupling: what tokens account for is there, whatever else is. */
  ghost predicate Backed(b: Bank) {
    UsageBounded(b.tokens) && forall u: UserId :: Backs(b, u)
  }

  lemma {:induction false} CoupledIsBacked(b: Bank)
    requires Coupled(b)
    ensures Backed(b)
  {
    forall u: UserId ensures Backs(b, u) {
      assert Covered(b, u);
    }
  }

  /** Only `locked` matters of the balances. */
  lemma {:induction false} SameLockedBacked(b: Bank, b': Bank)
    requires Backed(b) && b'.tokens == b.tokens && forall u: UserId :: Row(b', u).locked == Row(b, u).locked
    ensures Backed(b')
  {
    forall u: UserId ensures Backs(b', u) {
      assert Backs(b, u);
    }
  }

  // ---------------------------------------------------------------- movements

  lemma {:induction false} PostKeepsAudit(b: Bank, u: UserId, row: Balance, kind: EntryType, amount: int,
          reference: Reference)
    requires Audited(b)
    requires row.available == Row(b, u).available + Entry(u, kind, amount, reference, 0).Signed()
    ensures Audited(Post(b, u, row, kind, amount, reference))
  {
    var b' := Post(b, u, row, kind, amount, reference);
    var n := |b.entries|;
    var e := b'.entries[n];
    forall v: UserId ensures Derived(b', v) {
      assert Derived(b, v);
      EntryAppend(b.entries, e, v);
    }
    forall i: nat | i <= n ensures Carries(b'.entries, i) {
      if i == n {
        assert Derived(b', u);
        assert b'.entries[..n + 1] == b'.entries;
      } else {
        assert Carries(b.entries, i);
        assert b'.entries[..i + 1] == b.entries[..i + 1];
      }
    }
  }

  lemma {:induction false} PostMoney(b: Bank, u: UserId, row: Balance, kind: EntryType, amount: int,
          reference: Reference)
    ensures var b' := Post(b, u, row, kind, amount, reference);
            && Total(b'.balances, Available) == Total(b.balances, Available) + row.available - Row(b, u).available
            && Total(b'.balances, Locked) == Total(b.balances, Locked) + row.locked - Row(b, u).locked
            && ExternalNet(b'.entries) == ExternalNet(b.entries)
                    + if reference == External then b'.entries[|b.entries|].Signed() else 0
  {
    TotalUpdate(b, u, row, Available);
    TotalUpdate(b, u, row, Locked);
    ExternalAppend(b.entries, Post(b, u, row, kind, amount, reference).entries[|b.entries|]);
  }

  lemma {:induction false} OpenedLedger(b: Bank, u: UserId)
    requires LedgerSound(b)
    ensures LedgerSound(Opened(b, u))
    ensures Money(Opened(b, u)) == Money(b)
  {
    var b' := Opened(b, u);
    TotalUpdate(b, u, Row(b, u), Available);
    TotalUpdate(b, u, Row(b, u), Locked);
    forall v: UserId ensures Derived(b', v) {
      assert Derived(b, v);
    }
  }

  lemma {:induction false} OpenedKeeps(b: Bank, u: UserId)
    requires Coupled(b)
    ensures Coupled(Opened(b, u))
  {
    var b' := Opened(b, u);
    OpenedLedger(b, u);
    forall v: UserId ensures Covered(b', v) {
      assert Covered(b, v);
    }
    assert forall t: TokenId | t < |b.tokens| :: RefundMatches(b, t) ==> RefundMatches(b', t);
  }

  /** The tables after an external movement of the available balance. */
  function Moved(b: Bank, u: UserId, kind: EntryType, amount: int): Bank {
    var row := Row(b, u);
    var signed := if kind.CreditEntry? then amount else -amount;
    Post(b, u, row.(available := row.available + signed), kind, amount, External)
  }

  lemma {:induction false} MovedLedger(b: Bank, u: UserId, kind: EntryType, amount: int)
    requires LedgerSound(b)
    ensures LedgerSound(Moved(b, u, kind, amount))
  {
    hide Total, ExternalNet, Net, Carries, Derived;
    var row := Row(b, u);
    var signed := if kind.CreditEntry? then amount else -amount;
    PostKeepsAudit(b, u, row.(available := row.available + signed), kind, amount, External);
    PostMoney(b, u, row.(available := row.available + signed), kind, amount, External);
  }

  lemma {:induction false} MovedKeeps(b: Bank, u: UserId, kind: EntryType, amount: int)
    requires Coupled(b)
    ensures Coupled(Moved(b, u, kind, amount))
  {
    var b' := Moved(b, u, kind, amount);
    MovedLedger(b, u, kind, amount);
    forall v: UserId ensures Covered(b', v) {
      assert Covered(b, v);
    }
    forall t: TokenId | t < |b.tokens| ensures RefundMatches(b', t) {
      assert RefundMatches(b, t);
      RefundAppend(b.entries, b'.entries[|b.entries|], t);
    }
  }

  lemma {:induction false} CreditIsMove(b: Bank, u: UserId, amount: int)
    requires 0 < amount
    ensures Credit(b, u, amount, External).bank == Moved(b, u, CreditEntry, amount)
  {
  }

  lemma {:induction false} DebitIsMove(b: Bank, u: UserId, amount: int, overdraft: bool)
    ensures var r := Debit(b, u, amount, External, overdraft);
            r.bank == if r.error.None? then Moved(b, u, DebitEntry, amount)
                      else if r.error.value.InsufficientFunds? then Opened(b, u) else b
  {
  }

  lemma {:induction false} CreditKeeps(b: Bank, u: UserId, amount: int)
    ensures var b' := Credit(b, u, amount, External).bank;
            (LedgerSound(b) ==> LedgerSound(b')) && (Coupled(b) ==> Coupled(b'))
  {
    if amount > 0 {
      CreditIsMove(b, u, amount);
      if LedgerSound(b) {
        MovedLedger(b, u, CreditEntry, amount);
      }
      if Coupled(b) {
        MovedKeeps(b, u, CreditEntry, amount);
      }
    }
  }

  lemma {:induction false} DebitKeeps(b: Bank, u: UserId, amount: int, overdraft: bool)
    ensures var b' := Debit(b, u, amount, External, overdraft).bank;
            (LedgerSound(b) ==> LedgerSound(b')) && (Coupled(b) ==> Coupled(b'))
  {
    DebitIsMove(b, u, amount, overdraft);
    if LedgerSound(b) {
      MovedLedger(b, u, DebitEntry, amount);
      OpenedLedger(b, u);
    }
    if Coupled(b) {
      MovedKeeps(b, u, DebitEntry, amount);
      OpenedKeeps(b, u);
    }
  }

  lemma {:induction false} CreditMoney(b: Bank, u: UserId, amount: int)
    requires 0 < amount
    ensures Money(Credit(b, u, amount, External).bank) == Money(b) + amount
  {
    var row := Row(b, u);
    PostMoney(b, u, row.(available := row.available + amount), CreditEntry, amount, External);
  }

  lemma {:induction false} DebitMoney(b: Bank, u: UserId, amount: int, overdraft: bool)
    ensures var r := Debit(b, u, amount, External, overdraft);
            Money(r.bank) == Money(b) - if r.error.None? then amount else 0
  {
    var row := Row(b, u);
    PostMoney(b, u, row.(available := row.available - amount), DebitEntry, amount, External);
    TotalUpdate(b, u, row, Available);
    TotalUpdate(b, u, row, Locked);
  }

  /** A transfer goes through exactly when the payer has the money; it then takes the
      amount from the payer and gives it to the payee, which for one to oneself is
      nothing, and no money enters or leaves the system either way. */
  lemma {:induction false} TransferConserves(b: Bank, payer: UserId, payee: UserId, amount: int)
    ensures var r := Transfer(b, payer, payee, amount, External);
            && (r.error.None? <==> 0 < amount <= Row(b, payer).available)
            && Money(r.bank) == Money(b)
            && forall u: UserId ::
                 var moved := if r.error.Some? then 0
                              else (if u == payee then amount else 0) - (if u == payer then amount else 0);
                 Row(r.bank, u) == Balance(Row(b, u).available + moved, Row(b, u).locked)
  {
    if 0 < amount {
      var debited := Debit(b, payer, amount, External, false);
      DebitMoney(b, payer, amount, false);
      CreditMoney(debited.bank, payee, amount);
    }
  }

  lemma {:induction false} TransferKeeps(b: Bank, payer: UserId, payee: UserId, amount: int)
    ensures var b' := Transfer(b, payer, payee, amount, External).bank;
            (LedgerSound(b) ==> LedgerSound(b')) && (Coupled(b) ==> Coupled(b'))
  {
    hide Coupled, LedgerSound;
    DebitKeeps(b, payer, amount, false);
    var debited := Debit(b, payer, amount, External, false);
    if debited.error.None? {
      CreditKeeps(debited.bank, payee, amount);
    }
  }

  // ------------------------------------------------------------------- tokens

  lemma {:induction false} MoveKeepsLedger(b: Bank, u: UserId, unlocked: int, kind: EntryType, amount: int,
          reference: Reference)
    requires LedgerSound(b) && reference != External
    requires unlocked == if kind.CreditEntry? then amount else -amount
    ensures var row := Row(b, u);
            var b' := Post(b, u, Balance(row.available + unlocked, row.locked - unlocked), kind, amount, reference);
            && LedgerSound(b')
            && Total(b'.balances, Available) == Total(b.balances, Available) + unlocked
            && Total(b'.balances, Locked) == Total(b.balances, Locked) - unlocked
            && (forall t: TokenId :: Refunded(b'.entries, t) ==
                  Refunded(b.entries, t) + if reference == Refund(t) then amount else 0)
  {
    hide Total, ExternalNet, Net, Carries, Derived, Refunded;
    var row := Row(b, u);
    var row' := Balance(row.available + unlocked, row.locked - unlocked);
    PostKeepsAudit(b, u, row', kind, amount, reference);
    PostMoney(b, u, row', kind, amount, reference);
    var b' := Post(b, u, row', kind, amount, reference);
    forall t: TokenId
      ensures Refunded(b'.entries, t) == Refunded(b.entries, t) + if reference == Refund(t) then amount else 0
    {
      RefundAppend(b.entries, b'.entries[|b.entries|], t);
    }
  }

  /** The ledger part does not look at the tokens. */
  lemma {:induction false} LedgerIgnoresTokens(b: Bank, b': Bank)
    requires LedgerSound(b) && b'.balances == b.balances && b'.entries == b.entries
    ensures LedgerSound(b')
  {
    forall v: UserId ensures Derived(b', v) {
      assert Derived(b, v);
    }
  }

  lemma {:induction false} IssuedLedger(b: Bank, row: Token)
    requires LedgerSound(b)
    ensures LedgerSound(Issued(b, row))
  {
    var b' := Issued(b, row);
    MoveKeepsLedger(b, row.user, -row.amount, DebitEntry, row.amount, Issue);
    LedgerIgnoresTokens(b'.(tokens := b.tokens), b');
  }

  /** Creating the row that a lock was taken for. */
  lemma {:induction false} IssueKeeps(b: Bank, row: Token)
    requires Coupled(b) && 0 < row.amount && row.used == 0 && row.status.Active?
    ensures Coupled(Issued(b, row))
  {
    IssuedLedger(b, row);
    IssueKeepsCovered(b, row);
    IssueKeepsRefunds(b, row);
  }

  lemma {:induction false} IssueKeepsBacked(b: Bank, row: Token)
    requires Backed(b) && 0 < row.amount && row.used == 0 && row.status.Active?
    ensures Backed(Issued(b, row))
  {
    var b' := Issued(b, row);
    forall u: UserId ensures Backs(b', u) {
      assert Backs(b, u);
      HeldByAppend(b.tokens, row, u);
    }
  }

  lemma {:induction false} LiveUpdateKeepsBacked(b: Bank, t: TokenId, row: Token)
    requires Backed(b) && t < |b.tokens| && !b.tokens[t].Closed() && !row.Closed()
    requires row.user == b.tokens[t].user && row.amount == b.tokens[t].amount && 0 <= row.used <= row.amount
    ensures Backed(SetToken(b, t, row))
  {
    var b' := SetToken(b, t, row);
    forall u: UserId ensures Backs(b', u) {
      assert Backs(b, u);
      HeldByUpdate(b.tokens, t, row, u);
    }
  }

  lemma {:induction false} RecordSpendKeepsBacked(b: Bank, t: TokenId, amount: int, now: Instant)
    requires Backed(b) && !Undershoots(b, t, amount, now)
    ensures Backed(RecordSpend(b, t, amount, now).bank)
  {
    if t < |b.tokens| && b.tokens[t].status.Active? {
      LiveUpdateKeepsBacked(b, t, RecordSpend(b, t, amount, now).bank.tokens[t]);
    }
  }

  lemma {:induction false} RefundKeepsBacked(b: Bank, t: TokenId)
    requires Backed(b) && !RefundsAgain(b, t)
    ensures Backed(RefundSpecific(b, t).bank)
  {
    if t < |b.tokens| && !b.tokens[t].status.Expired? {
      assert Backs(b, b.tokens[t].user);
      HeldByNonNegative(b.tokens, b.tokens[t].user);
      CloseKeepsBacked(b, t, Expired);
    }
  }

  lemma {:induction false} IssueKeepsCovered(b: Bank, row: Token)
    requires LockedCovers(b) && !row.Closed()
    ensures LockedCovers(Issued(b, row))
  {
    var b' := Issued(b, row);
    forall v: UserId ensures Covered(b', v) {
      assert Covered(b, v);
      HeldByAppend(b.tokens, row, v);
    }
  }

  lemma {:induction false} IssueKeepsRefunds(b: Bank, row: Token)
    requires RefundsExact(b) && !row.Closed()
    ensures RefundsExact(Issued(b, row))
  {
    var b' := Issued(b, row);
    forall t: TokenId | t < |b'.tokens| ensures RefundMatches(b', t) {
      RefundAppend(b.entries, b'.entries[|b.entries|], t);
      if t < |b.tokens| {
        assert RefundMatches(b, t);
      } else {
        RefundedUnnamed(b.entries, t);
      }
    }
  }

  function Issued(b: Bank, row: Token): Bank {
    var bal := Row(b, row.user);
    Post(b, row.user, Balance(bal.available - row.amount, bal.locked + row.amount), DebitEntry, row.amount, Issue)
      .(tokens := b.tokens + [row])
  }

  lemma {:induction false} ProvisionIs(b: Bank, u: UserId, requested: int, clearance: Clearance, now: Instant)
    ensures var r := Provision(b, u, requested, clearance, now);
            if r.error.None? then
              && |r.bank.tokens| == |b.tokens| + 1
              && var row := r.bank.tokens[|b.tokens|];
                 && r.bank == Issued(b, row)
                 && row.user == u && 0 < row.amount <= Row(b, u).available
                 && row.used == 0 && row.status.Active?
            else r.bank == b || r.bank == Opened(b, u)
  {
  }

  /** A provisioned token is paid for out of what was available, within the device limit. */
  lemma {:induction false} ProvisionKeeps(b: Bank, u: UserId, requested: int, clearance: Clearance, now: Instant)
    ensures var r := Provision(b, u, requested, clearance, now);
            && (LedgerSound(b) ==> LedgerSound(r.bank))
            && (Coupled(b) ==> Coupled(r.bank))
            && (r.error.None? ==>
                  && Row(r.bank, u).available == Row(b, u).available - r.bank.tokens[|b.tokens|].amount >= 0
                  && r.bank.tokens[|b.tokens|].amount <= clearance.maxToken)
  {
    ProvisionIs(b, u, requested, clearance, now);
    var r := Provision(b, u, requested, clearance, now);
    if LedgerSound(b) {
      OpenedLedger(b, u);
      if r.error.None? {
        IssuedLedger(b, r.bank.tokens[|b.tokens|]);
      }
    }
    if Coupled(b) {
      OpenedKeeps(b, u);
      if r.error.None? {
        IssueKeeps(b, r.bank.tokens[|b.tokens|]);
      }
    }
  }

  /** Changing `used` or the status of a live token, without closing it, moves no money. */
  lemma {:induction false} LiveUpdateKeeps(b: Bank, t: TokenId, row: Token)
    requires Coupled(b) && t < |b.tokens| && !b.tokens[t].Closed() && !row.Closed()
    requires row.user == b.tokens[t].user && row.amount == b.tokens[t].amount
    requires 0 <= row.used <= row.amount && (row.status.Exhausted? ==> row.used == row.amount)
    ensures Coupled(SetToken(b, t, row))
  {
    var b' := SetToken(b, t, row);
    forall u: UserId ensures Covered(b', u) && Derived(b', u) {
      assert Covered(b, u) && Derived(b, u);
      HeldByUpdate(b.tokens, t, row, u);
    }
    forall s: TokenId | s < |b'.tokens| ensures RefundMatches(b', s) {
      assert RefundMatches(b, s);
    }
  }

  /** A spend that would be booked and take the usage below zero. */
  predicate Undershoots(b: Bank, t: TokenId, amount: int, now: Instant) {
    && t < |b.tokens|
    && b.tokens[t].status.Active?
    && now <= b.tokens[t].cutoff
    && b.tokens[t].used + amount < 0
  }

  /** record_spend does not look at the sign of the amount: it keeps the tables coupled
      unless it takes the usage of a token it may spend from below zero. */
  lemma {:induction false} RecordSpendKeepsIff(b: Bank, t: TokenId, amount: int, now: Instant)
    requires Coupled(b)
    ensures Coupled(RecordSpend(b, t, amount, now).bank) <==> !Undershoots(b, t, amount, now)
  {
    var r := RecordSpend(b, t, amount, now);
    if t < |b.tokens| && b.tokens[t].status.Active? {
      var row := b.tokens[t];
      LiveUpdateKeeps(b, t, row.(status := SpendLocked));
      if r.error.None? {
        var row' := r.bank.tokens[t];
        assert r.bank == SetToken(b, t, row');
        if 0 <= row.used + amount {
          LiveUpdateKeeps(b, t, row');
        } else {
          assert !(0 <= r.bank.tokens[t].used);
        }
      }
    }
  }

  /** What a close pays out: the unspent part, clamped to the locked balance. */
  function Payout(b: Bank, t: TokenId): int
    requires t < |b.tokens|
  {
    var row := b.tokens[t];
    if row.Unused() > 0 then Min(row.Unused(), Row(b, row.user).locked) else 0
  }

  /** Money only moves from locked to available, in whatever state the tables are. */
  lemma {:induction false} CloseTotals(b: Bank, t: TokenId, status: Status)
    requires t < |b.tokens|
    ensures var b' := Close(b, t, status);
            && Total(b'.balances, Available) == Total(b.balances, Available) + Payout(b, t)
            && Total(b'.balances, Locked) == Total(b.balances, Locked) - Payout(b, t)
            && Money(b') == Money(b)
  {
    var row := b.tokens[t];
    if row.Unused() > 0 {
      var r := Payout(b, t);
      var bal := Row(b, row.user);
      PostMoney(b, row.user, Balance(bal.available + r, bal.locked - r), CreditEntry, r, Refund(t));
    }
  }

  lemma {:induction false} PaidOutEffect(b: Bank, t: TokenId)
    requires LedgerSound(b) && t < |b.tokens|
    ensures var b' := PaidOut(b, t);
            && LedgerSound(b')
            && (forall s: TokenId :: Refunded(b'.entries, s) ==
                  Refunded(b.entries, s) + if s == t then Payout(b, t) else 0)
            && Total(b'.balances, Available) == Total(b.balances, Available) + Payout(b, t)
            && Total(b'.balances, Locked) == Total(b.balances, Locked) - Payout(b, t)
  {
    var row := b.tokens[t];
    if row.Unused() > 0 {
      var r := Payout(b, t);
      var bal := Row(b, row.user);
      MoveKeepsLedger(b, row.user, r, CreditEntry, r, Refund(t));
      assert PaidOut(b, t) == Post(b, row.user, Balance(bal.available + r, bal.locked - r), CreditEntry, r,
              Refund(t));
    }
  }

  lemma {:induction false} CloseEffect(b: Bank, t: TokenId, status: Status)
    requires LedgerSound(b) && t < |b.tokens| && (status.Expired? || status.Revoked?)
    ensures var b' := Close(b, t, status);
            var row := b.tokens[t];
            && LedgerSound(b')
            && (forall u: UserId :: HeldBy(b'.tokens, u) ==
                  HeldBy(b.tokens, u) - if u == row.user then row.Held() - row.used else 0)
            && (forall s: TokenId :: Refunded(b'.entries, s) ==
                  Refunded(b.entries, s) + if s == t then Payout(b, t) else 0)
            && Total(b'.balances, Available) == Total(b.balances, Available) + Payout(b, t)
            && Total(b'.balances, Locked) == Total(b.balances, Locked) - Payout(b, t)
  {
    var row := b.tokens[t];
    forall u: UserId
      ensures HeldBy(Close(b, t, status).tokens, u) ==
              HeldBy(b.tokens, u) - if u == row.user then row.Held() - row.used else 0
    {
      HeldByUpdate(b.tokens, t, row.(status := status), u);
    }
    PaidOutEffect(b, t);
    LedgerIgnoresTokens(PaidOut(b, t), Close(b, t, status));
  }

  lemma {:induction false} CloseRow(b: Bank, t: TokenId, status: Status, u: UserId)
    requires t < |b.tokens|
    ensures Row(Close(b, t, status), u) ==
            if u == b.tokens[t].user then Balance(Row(b, u).available + Payout(b, t), Row(b, u).locked - Payout(b, t))
            else Row(b, u)
  {
  }

  /** The clamp never binds on a token that is not closed yet. */
  lemma {:induction false} ClampIdle(b: Bank, t: TokenId)
    requires Backed(b) && t < |b.tokens| && !b.tokens[t].Closed()
    ensures b.tokens[t].Unused() <= Row(b, b.tokens[t].user).locked
    ensures Payout(b, t) == b.tokens[t].Unused()
  {
    assert Backs(b, b.tokens[t].user);
    HeldByBounds(b.tokens, t);
  }

  lemma {:induction false} CloseKeepsBacked(b: Bank, t: TokenId, status: Status)
    requires Backed(b) && t < |b.tokens| && (status.Expired? || status.Revoked?)
    requires !b.tokens[t].Closed() || Payout(b, t) == 0
    ensures Backed(Close(b, t, status))
  {
    var b' := Close(b, t, status);
    if !b.tokens[t].Closed() {
      ClampIdle(b, t);
    }
    forall u: UserId ensures Backs(b', u) {
      assert Backs(b, u);
      CloseRow(b, t, status, u);
      HeldByUpdate(b.tokens, t, b.tokens[t].(status := status), u);
    }
  }

  lemma {:induction false} CloseKeeps(b: Bank, t: TokenId, status: Status)
    requires Coupled(b) && t < |b.tokens| && !b.tokens[t].Closed() && (status.Expired? || status.Revoked?)
    ensures Coupled(Close(b, t, status))
    ensures Money(Close(b, t, status)) == Money(b)
  {
    hide Money, LedgerSound;
    CloseEffect(b, t, status);
    CloseTotals(b, t, status);
    CoupledIsBacked(b);
    ClampIdle(b, t);
    assert RefundMatches(b, t);
    CloseKeepsRefunds(b, t, status);
    var b' := Close(b, t, status);
    forall u: UserId ensures Covered(b', u) {
      assert Covered(b, u);
      CloseRow(b, t, status, u);
    }
  }

  lemma {:induction false} CloseRefunds(b: Bank, t: TokenId, status: Status)
    requires t < |b.tokens|
    ensures var b' := Close(b, t, status);
            && (forall s: TokenId :: Refunded(b'.entries, s) ==
                  Refunded(b.entries, s) + if s == t then Payout(b, t) else 0)
            && (forall i | 0 <= i < |b'.entries| && b'.entries[i].reference.Refund? ::
                  b'.entries[i].reference == Refund(t) || (i < |b.entries| && b'.entries[i] == b.entries[i]))
  {
    var b' := Close(b, t, status);
    if b'.entries != b.entries {
      forall s: TokenId
        ensures Refunded(b'.entries, s) == Refunded(b.entries, s) + if s == t then Payout(b, t) else 0
      {
        RefundAppend(b.entries, b'.entries[|b.entries|], s);
      }
    }
  }

  /** The refund entries stay exact if the payout is what the token now has to have got. */
  lemma {:induction false} CloseKeepsRefunds(b: Bank, t: TokenId, status: Status)
    requires RefundsExact(b) && t < |b.tokens| && (status.Expired? || status.Revoked?)
    requires Refunded(b.entries, t) + Payout(b, t) == b.tokens[t].Unused()
    ensures RefundsExact(Close(b, t, status))
  {
    hide Refunded, Payout;
    CloseRefunds(b, t, status);
    var b' := Close(b, t, status);
    forall s: TokenId | s < |b'.tokens| ensures RefundMatches(b', s) {
      assert RefundMatches(b, s);
    }
  }

  lemma {:induction false} RevokeKeeps(b: Bank, t: TokenId)
    requires Coupled(b)
    ensures Coupled(Revoke(b, t).bank)
    ensures Money(Revoke(b, t).bank) == Money(b)
  {
    if t < |b.tokens| && !b.tokens[t].Closed() {
      CloseKeeps(b, t, Revoked);
    }
  }

  /** A revoked, partly unspent token whose owner has something locked. */
  predicate RefundsAgain(b: Bank, t: TokenId) {
    && t < |b.tokens|
    && b.tokens[t].status.Revoked?
    && b.tokens[t].Unused() > 0
    && Row(b, b.tokens[t].user).locked > 0
  }

  /** refund_specific_token guards only against `expired`: it keeps the tables coupled
      unless it is given such a token. */
  lemma {:induction false} RefundSpecificKeepsIff(b: Bank, t: TokenId)
    requires Coupled(b)
    ensures Coupled(RefundSpecific(b, t).bank) <==> !RefundsAgain(b, t)
  {
    if t < |b.tokens| {
      var row := b.tokens[t];
      if row.status.Revoked? {
        assert Covered(b, row.user);
        HeldByNonNegative(b.tokens, row.user);
        RefundRevoked(b, t);
      } else if !row.Closed() {
        CloseKeeps(b, t, Expired);
      }
    }
  }

  /** Revoking leaves closed tokens alone.  Any other is revoked, and its owner gets back
      what was not used of it. */
  lemma {:induction false} RevokeDoes(b: Bank, t: TokenId)
    ensures var r := Revoke(b, t);
            if t >= |b.tokens| then r == Outcome(b, Some(NotFound))
            else
              var row := b.tokens[t];
              var unused := row.amount - row.used;
              && r.error.None?
              && if row.status in {Expired, Revoked} then r.bank == b
                 else
                   && r.bank.tokens == b.tokens[t := row.(status := Revoked)]
                   && (Backed(b) ==> forall u: UserId ::
                         Row(r.bank, u) == if u == row.user
                                           then Balance(Row(b, u).available + unused, Row(b, u).locked - unused)
                                           else Row(b, u))
                   && (Backed(b) ==> r.bank.entries == b.entries + if unused == 0 then [] else
                           [Entry(row.user, CreditEntry, unused, Refund(t), Row(b, row.user).available + unused)])
  {
    if t < |b.tokens| && !b.tokens[t].Closed() && Backed(b) {
      ClampIdle(b, t);
    }
  }

  /** The manual refund leaves expired tokens alone.  Any other is expired, and its owner gets
      back what was not used of it, of a revoked one as far as there is something locked. */
  lemma {:induction false} RefundSpecificDoes(b: Bank, t: TokenId)
    ensures var r := RefundSpecific(b, t);
            if t >= |b.tokens| then r == Outcome(b, Some(NotFound))
            else
              var row := b.tokens[t];
              var unused := row.amount - row.used;
              && r.error.None?
              && if row.status == Expired then r.bank == b
                 else
                   && r.bank.tokens == b.tokens[t := row.(status := Expired)]
                   && (Backed(b) ==> forall u: UserId ::
                         var refund := if row.status == Revoked && Row(b, u).locked < unused
                                       then Row(b, u).locked else unused;
                         Row(r.bank, u) == if u == row.user
                                           then Balance(Row(b, u).available + refund, Row(b, u).locked - refund)
                                           else Row(b, u))
  {
    if t < |b.tokens| && Backed(b) {
      if b.tokens[t].Closed() {
        assert Backs(b, b.tokens[t].user);
        HeldByNonNegative(b.tokens, b.tokens[t].user);
      } else {
        ClampIdle(b, t);
      }
    }
  }

  lemma {:induction false} RefundRevoked(b: Bank, t: TokenId)
    requires Coupled(b) && t < |b.tokens| && b.tokens[t].status.Revoked?
    ensures Coupled(Close(b, t, Expired)) <==> Payout(b, t) == 0
  {
    var b' := Close(b, t, Expired);
    CloseEffect(b, t, Expired);
    forall u: UserId ensures Covered(b', u) <==> (u == b.tokens[t].user ==> Payout(b, t) == 0) {
      assert Covered(b, u);
      CloseRow(b, t, Expired, u);
    }
    assert RefundMatches(b, t);
    if Payout(b, t) == 0 {
      CloseKeepsRefunds(b, t, Expired);
    } else {
      assert !Covered(b', b.tokens[t].user);
    }
  }
}
