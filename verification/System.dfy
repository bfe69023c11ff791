/** Everything that moves money or tokens, as one machine, and what holds in every run of
    it: first in all runs, then in those whose callers keep off a few inputs.  Redis keys
    may lapse at any moment between operations. */
module System {
  import opened Types
  import opened Sums
  import opened Ledger
  import opened Tokens
  import opened Coupling
  import opened Sweeps
  import opened Sync

  datatype Op =
    | CreditOp(user: UserId, amount: int)
    | DebitOp(user: UserId, amount: int, overdraft: bool)
    | TransferOp(payer: UserId, payee: UserId, amount: int)
    | ProvisionOp(user: UserId, requested: int, clearance: Clearance, now: Instant)
    | SpendOp(token: TokenId, amount: int, now: Instant)
    | RevokeOp(token: TokenId)
    | RefundOp(token: TokenId)
    | CutoffOp(rows: seq<TokenId>, now: Instant)
    | ExpireOp(rows: seq<TokenId>, now: Instant)
    | BulkExpireOp(now: Instant)
    | SyncOp(txs: seq<RawTx>, dir: Directory, times: seq<Instant>)
    | LapseOp(nonces: set<Nonce>, keys: set<(DeviceId, TokenId)>)

  /** What the code itself sees to: a sweep runs over what its query returned, and each
      element of a batch is handled at some instant. */
  ghost predicate Posed(w: World, op: Op) {
    match op
    case CutoffOp(rows, now) => Selects(CutoffSweep, rows, w.bank.tokens, now)
    case ExpireOp(rows, now) => Selects(ExpirySweep, rows, w.bank.tokens, now)
    case SyncOp(txs, _, times) => |txs| == |times|
    case _ => true
  }

  ghost function Step(w: World, op: Op): World
    requires Posed(w, op)
  {
    match op
    case CreditOp(u, amount) => w.(bank := Credit(w.bank, u, amount, External).bank)
    case DebitOp(u, amount, overdraft) => w.(bank := Debit(w.bank, u, amount, External, overdraft).bank)
    case TransferOp(payer, payee, amount) => w.(bank := Transfer(w.bank, payer, payee, amount, External).bank)
    case ProvisionOp(u, requested, clearance, now) => w.(bank := Provision(w.bank, u, requested, clearance, now).bank)
    case SpendOp(t, amount, now) => SpendStep(w, t, amount, now)
    case RevokeOp(t) => w.(bank := Revoke(w.bank, t).bank)
    case RefundOp(t) => w.(bank := RefundSpecific(w.bank, t).bank)
    case CutoffOp(rows, _) => w.(bank := CutoffRows(w.bank, rows))
    case ExpireOp(rows, _) => w.(bank := ExpireRows(w.bank, rows))
    case BulkExpireOp(now) => w.(bank := BulkExpire(w.bank, now))
    case SyncOp(txs, dir, times) => Batch(w, txs, dir, times).world
    case LapseOp(nonces, keys) => w.(nonces := w.nonces - nonces, sequences := w.sequences - keys)
  }

  function SpendStep(w: World, t: TokenId, amount: int, now: Instant): World {
    var r := RecordSpend(w.bank, t, amount, now);
    w.(bank := r.bank, spends := if r.error.None? then w.spends + [Spend(t, amount)] else w.spends)
  }

  /** The status of a token after any step, whoever caused it. */
  lemma {:induction false} StepSetsStatus(w: World, op: Op, t: TokenId)
    requires Posed(w, op) && t < |w.bank.tokens|
    ensures t < |Step(w, op).bank.tokens|
    ensures var row := w.bank.tokens[t];
            Step(w, op).bank.tokens[t].status ==
            match op
            case RevokeOp(s) => if s == t && row.status !in {Expired, Revoked} then Revoked else row.status
            case RefundOp(s) => if s == t then Expired else row.status
            case CutoffOp(_, now) => if row.status == Active && row.cutoff < now then SpendLocked else row.status
            case ExpireOp(_, now) =>
              if row.status in {Active, SpendLocked} && row.expiresAt < now then Expired else row.status
            case BulkExpireOp(now) => if row.status == Active && row.expiresAt < now then Expired else row.status
            case SpendOp(s, amount, now) =>
              if s != t || row.status != Active then row.status
              else if row.cutoff < now then SpendLocked
              else if row.used + amount == row.amount then Exhausted else Active
            case _ => row.status
  {
    hide Credit, Debit, Transfer, Provision, RecordSpend, Revoke, RefundSpecific;
    hide CutoffRows, ExpireRows, BulkExpire, Batch;
    match op
    case CreditOp(u, amount) => CreditDoes(w.bank, u, amount, External);
    case DebitOp(u, amount, overdraft) => DebitDoes(w.bank, u, amount, External, overdraft);
    case TransferOp(payer, payee, amount) => TransferKeepsTokens(w.bank, payer, payee, amount);
    case ProvisionOp(u, requested, clearance, now) => ProvisionDoes(w.bank, u, requested, clearance, now);
    case SpendOp(s, amount, now) => RecordSpendDoes(w.bank, s, amount, now);
    case RevokeOp(s) => RevokeDoes(w.bank, s);
    case RefundOp(s) => RefundSpecificDoes(w.bank, s);
    case CutoffOp(rows, now) => CutoffSweepDoes(w.bank, rows, now, t);
    case ExpireOp(rows, now) => ExpirySweepDoes(w.bank, rows, now, t, 0);
    case BulkExpireOp(now) => BulkExpireDoes(w.bank, now, t);
    case SyncOp(txs, dir, times) => BatchGrows(w, txs, dir, times);
    case LapseOp(_, _) =>
  }

  lemma {:induction false} TransferKeepsTokens(b: Bank, payer: UserId, payee: UserId, amount: int)
    ensures Transfer(b, payer, payee, amount, External).bank.tokens == b.tokens
  {
  }

  /** What a credit, debit or transfer moves. */
  lemma {:induction false} StepMovesMoney(w: World, op: Op, u: UserId)
    requires Posed(w, op) && (op.CreditOp? || op.DebitOp? || op.TransferOp?)
    ensures Row(Step(w, op).bank, u).locked == Row(w.bank, u).locked
    ensures Row(Step(w, op).bank, u).available == Row(w.bank, u).available +
            match op
            case CreditOp(v, amount) => if v == u && 0 < amount then amount else 0
            case DebitOp(v, amount, overdraft) =>
              if v == u && 0 < amount && (overdraft || amount <= Row(w.bank, u).available) then -amount else 0
            case TransferOp(payer, payee, amount) =>
              if 0 < amount <= Row(w.bank, payer).available then
                (if payee == u then amount else 0) - (if payer == u then amount else 0)
              else 0
            case _ => 0
  {
    hide Credit, Debit, Transfer;
    match op
    case CreditOp(v, amount) => CreditDoes(w.bank, v, amount, External);
    case DebitOp(v, amount, overdraft) => DebitDoes(w.bank, v, amount, External, overdraft);
    case TransferOp(payer, payee, amount) => TransferConserves(w.bank, payer, payee, amount);
    case _ =>
  }

  /** A lapse takes the keys that lapse, and nothing else. */
  lemma {:induction false} LapseDoes(w: World, nonces: set<Nonce>, keys: set<(DeviceId, TokenId)>)
    ensures var w' := Step(w, LapseOp(nonces, keys));
            && w' == w.(nonces := w'.nonces, sequences := w'.sequences)
            && (forall nonce: Nonce :: nonce in w'.nonces <==> nonce in w.nonces && nonce !in nonces)
            && (forall key :: key in w'.sequences <==> key in w.sequences && key !in keys)
            && (forall key | key in w'.sequences :: w'.sequences[key] == w.sequences[key])
  {
  }

  ghost predicate PosedRun(w: World, ops: seq<Op>)
    decreases |ops|
  {
    ops == [] || (Posed(w, ops[0]) && PosedRun(Step(w, ops[0]), ops[1..]))
  }

  ghost function Run(w: World, ops: seq<Op>): World
    requires PosedRun(w, ops)
    decreases |ops|
  {
    if ops == [] then w else Run(Step(w, ops[0]), ops[1..])
  }

  // ------------------------------------------------------------ in every run

  function Synced(txs: seq<Transaction>, t: TokenId): int {
    if txs == [] then 0
    else
      var last := txs[|txs| - 1];
      Synced(txs[..|txs| - 1], t) + if last.token == t then last.amount else 0
  }

  function Spent(spends: seq<Spend>, t: TokenId): int {
    if spends == [] then 0
    else
      var last := spends[|spends| - 1];
      Spent(spends[..|spends| - 1], t) + if last.token == t then last.amount else 0
  }

  /** Usage is accounted for: accepted transactions plus direct spends. */
  ghost predicate UsageAccounted(w: World) {
    && (forall t: TokenId | t < |w.bank.tokens| :: w.bank.tokens[t].used == Synced(w.txs, t) + Spent(w.spends, t))
    && (forall i | 0 <= i < |w.txs| :: w.txs[i].token < |w.bank.tokens|)
    && (forall i | 0 <= i < |w.spends| :: w.spends[i].token < |w.bank.tokens|)
  }

  /** No two accepted transactions share an id or a nonce. */
  ghost predicate Distinct(w: World) {
    forall i, j | 0 <= i < j < |w.txs| :: w.txs[i].txId != w.txs[j].txId && w.txs[i].nonce != w.txs[j].nonce
  }

  predicate Under(tx: Transaction, key: (DeviceId, TokenId)) {
    (tx.device, tx.token) == key
  }

  /** For this device and token the sequence numbers strictly increase in the order of
      acceptance, up to the one remembered. */
  ghost predicate InSequence(w: World, key: (DeviceId, TokenId)) {
    && (forall i, j | 0 <= i < j < |w.txs| && Under(w.txs[i], key) && Under(w.txs[j], key) ::
          w.txs[i].sequence < w.txs[j].sequence)
    && (forall i | 0 <= i < |w.txs| && Under(w.txs[i], key) ::
          key in w.sequences && w.txs[i].sequence <= w.sequences[key])
  }

  ghost predicate WithinAmounts(b: Bank) {
    forall t | 0 <= t < |b.tokens| :: b.tokens[t].used <= b.tokens[t].amount
  }

  /** Every unit of usage has its transaction or spend, within the amount, and counts once. */
  ghost predicate Traced(w: World) {
    UsageAccounted(w) && Distinct(w) && WithinAmounts(w.bank)
  }

  /** What no caller can upset. */
  ghost predicate Kept(w: World) {
    LedgerSound(w.bank) && Traced(w)
  }

  lemma {:induction false} UnnamedUsage(w: World, t: TokenId)
    requires forall i | 0 <= i < |w.txs| :: w.txs[i].token != t
    requires forall i | 0 <= i < |w.spends| :: w.spends[i].token != t
    ensures Synced(w.txs, t) == 0 && Spent(w.spends, t) == 0
    decreases |w.txs| + |w.spends|
  {
    if w.txs != [] {
      UnnamedUsage(w.(txs := w.txs[..|w.txs| - 1]), t);
    } else if w.spends != [] {
      UnnamedUsage(w.(spends := w.spends[..|w.spends| - 1]), t);
    }
  }

  // --------------------------------------------------------------------- sync

  lemma {:induction false} BookKeepsDistinct(w: World, tx: RawTx, dir: Directory, now: Instant)
    requires Distinct(w) && Acceptable(w, tx, dir, now)
    ensures Distinct(Book(w, tx))
  {
    var w' := Book(w, tx);
    var n := |w.txs|;
    forall i | 0 <= i < n ensures w.txs[i].txId != tx.txId && w.txs[i].nonce != tx.nonce {
    }
    assert forall i | 0 <= i < n :: w'.txs[i] == w.txs[i];
  }

  lemma {:induction false} BookKeepsSequence(w: World, tx: RawTx, dir: Directory, now: Instant,
          key: (DeviceId, TokenId))
    requires InSequence(w, key) && Acceptable(w, tx, dir, now)
    ensures InSequence(Book(w, tx), key)
  {
  }

  lemma {:induction false} BookKeepsUsage(w: World, tx: RawTx)
    requires UsageAccounted(w)
    requires tx.token < |w.bank.tokens| && tx.payer.Some? && tx.payee.Some? && tx.payerDevice.Some?
    ensures UsageAccounted(Book(w, tx))
  {
    var w' := Book(w, tx);
    assert w'.txs[..|w.txs|] == w.txs;
  }

  /** One element keeps the tables coupled if and only if it is not one that is accepted
      and takes the usage of its token below zero. */
  lemma {:induction false} ProcessKeepsIff(w: World, tx: RawTx, dir: Directory, now: Instant)
    requires Coupled(w.bank)
    ensures Coupled(Process(w, tx, dir, now).0.bank) <==>
            !(Acceptable(w, tx, dir, now) && w.bank.tokens[tx.token].used + tx.amount < 0)
  {
    AcceptedIff(w, tx, dir, now);
    if Acceptable(w, tx, dir, now) {
      var row := w.bank.tokens[tx.token];
      var row' := row.(used := row.used + tx.amount);
      if 0 <= row'.used {
        LiveUpdateKeeps(w.bank, tx.token, row');
      } else {
        assert !(0 <= Book(w, tx).bank.tokens[tx.token].used);
      }
    }
  }

  lemma {:induction false} ProcessKeepsTraced(w: World, tx: RawTx, dir: Directory, now: Instant)
    requires Traced(w)
    ensures Traced(Process(w, tx, dir, now).0)
  {
    AcceptedIff(w, tx, dir, now);
    if Acceptable(w, tx, dir, now) {
      BookKeepsUsage(w, tx);
      BookKeepsDistinct(w, tx, dir, now);
    }
  }

  lemma {:induction false} RollbackKeepsTraced(w: World, reached: World)
    requires Traced(w)
    ensures Traced(RolledBack(w, reached))
  {
  }

  lemma {:induction false} BatchKeepsTraced(w: World, txs: seq<RawTx>, dir: Directory, times: seq<Instant>)
    requires Traced(w) && |txs| == |times|
    ensures Traced(Batch(w, txs, dir, times).world)
  {
    if txs != [] {
      hide Process, Batch, Traced;
      var n := |txs| - 1;
      var before := Batch(w, txs[..n], dir, times[..n]);
      BatchStep(w, txs, dir, times);
      BatchKeepsTraced(w, txs[..n], dir, times[..n]);
      RollbackKeepsTraced(w, Process(before.world, txs[n], dir, times[n]).0);
      ProcessKeepsTraced(before.world, txs[n], dir, times[n]);
    }
  }

  lemma {:induction false} ProcessKeepsSequence(w: World, tx: RawTx, dir: Directory, now: Instant,
          key: (DeviceId, TokenId))
    requires InSequence(w, key)
    ensures InSequence(Process(w, tx, dir, now).0, key)
  {
    AcceptedIff(w, tx, dir, now);
    if Acceptable(w, tx, dir, now) {
      BookKeepsSequence(w, tx, dir, now, key);
    }
  }

  lemma {:induction false} RollbackKeepsSequence(w: World, reached: World, key: (DeviceId, TokenId))
    requires InSequence(w, key) && Grown(w, reached)
    ensures InSequence(RolledBack(w, reached), key)
  {
  }

  lemma {:induction false} BatchKeepsSequence(w: World, txs: seq<RawTx>, dir: Directory, times: seq<Instant>,
          key: (DeviceId, TokenId))
    requires InSequence(w, key) && |txs| == |times|
    ensures InSequence(Batch(w, txs, dir, times).world, key)
  {
    if txs != [] {
      hide Process, Batch, InSequence, Grown;
      var n := |txs| - 1;
      var before := Batch(w, txs[..n], dir, times[..n]);
      var after := Process(before.world, txs[n], dir, times[n]).0;
      BatchStep(w, txs, dir, times);
      BatchKeepsSequence(w, txs[..n], dir, times[..n], key);
      if !before.raised {
        BatchGrows(w, txs[..n], dir, times[..n]);
        ProcessGrows(before.world, txs[n], dir, times[n]);
        GrownTwice(w, before.world, after);
        RollbackKeepsSequence(w, after, key);
        ProcessKeepsSequence(before.world, txs[n], dir, times[n], key);
      }
    }
  }

  // ------------------------------------------------------------- step by step

  lemma {:induction false} SpentAppend(spends: seq<Spend>, s: Spend, t: TokenId)
    ensures Spent(spends + [s], t) == Spent(spends, t) + if s.token == t then s.amount else 0
  {
    assert (spends + [s])[..|spends|] == spends;
  }

  lemma {:induction false} SpendKeepsUsage(w: World, t: TokenId, amount: int, now: Instant)
    requires UsageAccounted(w)
    ensures UsageAccounted(SpendStep(w, t, amount, now))
  {
    var w' := SpendStep(w, t, amount, now);
    forall s: TokenId | s < |w.bank.tokens|
      ensures w'.bank.tokens[s].used == Synced(w'.txs, s) + Spent(w'.spends, s)
    {
      assert w.bank.tokens[s].used == Synced(w.txs, s) + Spent(w.spends, s);
      SpentAppend(w.spends, Spend(t, amount), s);
    }
  }

  lemma {:induction false} SpendKeepsTraced(w: World, t: TokenId, amount: int, now: Instant)
    requires Traced(w)
    ensures Traced(SpendStep(w, t, amount, now))
  {
    hide UsageAccounted, Undershoots;
    SpendKeepsUsage(w, t, amount, now);
  }

  /** Rows keep amount and usage across the steps that do not spend; new ones are unused. */
  ghost predicate KeepsUsage(b: Bank, b': Bank) {
    && |b.tokens| <= |b'.tokens|
    && (forall t | 0 <= t < |b.tokens| ::
          b'.tokens[t].used == b.tokens[t].used && b'.tokens[t].amount == b.tokens[t].amount)
    && (forall t | |b.tokens| <= t < |b'.tokens| :: b'.tokens[t].used == 0 < b'.tokens[t].amount)
  }

  lemma {:induction false} KeepsUsageKeepsTraced(w: World, b': Bank)
    requires Traced(w) && KeepsUsage(w.bank, b')
    ensures Traced(w.(bank := b'))
  {
    forall t: TokenId | |w.bank.tokens| <= t < |b'.tokens| ensures Synced(w.txs, t) + Spent(w.spends, t) == 0 {
      UnnamedUsage(w, t);
    }
  }

  lemma {:induction false} SweepKeepsUsage(b: Bank, rows: seq<TokenId>)
    requires Rows(rows, b.tokens)
    ensures KeepsUsage(b, CutoffRows(b, rows)) && KeepsUsage(b, ExpireRows(b, rows))
  {
    forall t | 0 <= t < |b.tokens|
      ensures CutoffRows(b, rows).tokens[t] == WithStatus(b.tokens[t], t in rows, SpendLocked)
      ensures ExpireRows(b, rows).tokens[t] == WithStatus(b.tokens[t], t in rows, Expired)
    {
      CutoffRowsTokens(b, rows, t);
      ExpireRowsTokens(b, rows, t);
    }
  }

  lemma {:induction false} BankStepKeepsUsage(w: World, op: Op)
    requires Posed(w, op) && !op.SyncOp? && !op.SpendOp? && !op.LapseOp?
    ensures KeepsUsage(w.bank, Step(w, op).bank) && Step(w, op) == w.(bank := Step(w, op).bank)
  {
    match op
    case CutoffOp(rows, _) => SweepKeepsUsage(w.bank, rows);
    case ExpireOp(rows, _) => SweepKeepsUsage(w.bank, rows);
    case _ =>
  }

  lemma {:induction false} ExpireRowsLedger(b: Bank, rows: seq<TokenId>)
    requires Rows(rows, b.tokens)
    ensures Money(ExpireRows(b, rows)) == Money(b)
    ensures LedgerSound(b) ==> LedgerSound(ExpireRows(b, rows))
  {
    if rows != [] {
      hide LedgerSound, Close;
      var n := |rows| - 1;
      var front := ExpireRows(b, rows[..n]);
      ExpireRowsLedger(b, rows[..n]);
      CloseTotals(front, rows[n], Expired);
      if LedgerSound(b) {
        CloseEffect(front, rows[n], Expired);
      }
    }
  }

  /** Sync, spends, cutoffs, the bulk expiry and lapses write neither balances nor entries. */
  lemma {:induction false} QuietSteps(w: World, op: Op)
    requires Posed(w, op) && (op.SyncOp? || op.SpendOp? || op.CutoffOp? || op.BulkExpireOp? || op.LapseOp?)
    ensures var b' := Step(w, op).bank;
            b'.balances == w.bank.balances && b'.entries == w.bank.entries
  {
    hide Batch;
    match op
    case SyncOp(txs, dir, times) => BatchGrows(w, txs, dir, times);
    case CutoffOp(rows, _) => CutoffRowsLedger(w.bank, rows);
    case _ =>
  }

  lemma {:induction false} StepKeepsLedger(w: World, op: Op)
    requires Posed(w, op) && LedgerSound(w.bank)
    ensures LedgerSound(Step(w, op).bank)
  {
    hide LedgerSound, Batch, Coupled;
    var b := w.bank;
    match op
    case CreditOp(u, amount) => CreditKeeps(b, u, amount);
    case DebitOp(u, amount, overdraft) => DebitKeeps(b, u, amount, overdraft);
    case TransferOp(payer, payee, amount) => TransferKeeps(b, payer, payee, amount);
    case ProvisionOp(u, requested, clearance, now) => ProvisionKeeps(b, u, requested, clearance, now);
    case RevokeOp(t) => if t < |b.tokens| { CloseEffect(b, t, Revoked); }
    case RefundOp(t) => if t < |b.tokens| { CloseEffect(b, t, Expired); }
    case ExpireOp(rows, _) => ExpireRowsLedger(b, rows);
    case _ =>
      QuietSteps(w, op);
      LedgerIgnoresTokens(b, Step(w, op).bank);
  }

  lemma {:induction false} StepKeepsTraced(w: World, op: Op)
    requires Traced(w) && Posed(w, op)
    ensures Traced(Step(w, op))
  {
    hide Traced, KeepsUsage, Batch;
    match op
    case SyncOp(txs, dir, times) => BatchKeepsTraced(w, txs, dir, times);
    case SpendOp(t, amount, now) => SpendKeepsTraced(w, t, amount, now);
    case LapseOp(_, _) => RollbackKeepsTraced(w, Step(w, op));
    case _ =>
      BankStepKeepsUsage(w, op);
      KeepsUsageKeepsTraced(w, Step(w, op).bank);
  }

  lemma {:induction false} RunKeepsBooks(w: World, ops: seq<Op>)
    requires Kept(w) && PosedRun(w, ops)
    ensures Kept(Run(w, ops))
    decreases |ops|
  {
    if ops != [] {
      StepKeepsLedger(w, ops[0]);
      StepKeepsTraced(w, ops[0]);
      RunKeepsBooks(Step(w, ops[0]), ops[1..]);
    }
  }

  /** In every run from empty tables, whatever callers do: each entry carries the signed sum
      up to itself, what is available to a user is the sum of the user's entries, and the
      money in the system is what came in less what went out. */
  lemma {:induction false} ReachableIsAudited(ops: seq<Op>, u: UserId)
    requires PosedRun(EMPTY_WORLD, ops)
    ensures var b := Run(EMPTY_WORLD, ops).bank;
            && Row(b, u).available == Net(b.entries, u)
            && Money(b) == ExternalNet(b.entries)
            && Audited(b)
  {
    RunKeepsBooks(EMPTY_WORLD, ops);
    assert Derived(Run(EMPTY_WORLD, ops).bank, u);
  }

  /** In every run, whatever callers do and whichever keys lapse, a token has been used for
      exactly what was accepted and spent on it, not beyond its amount, and no two accepted
      transactions share an id or a nonce. */
  lemma {:induction false} ReachableIsReplayFree(ops: seq<Op>, t: TokenId)
    requires PosedRun(EMPTY_WORLD, ops) && t < |Run(EMPTY_WORLD, ops).bank.tokens|
    ensures var w := Run(EMPTY_WORLD, ops);
            && Synced(w.txs, t) + Spent(w.spends, t) == w.bank.tokens[t].used <= w.bank.tokens[t].amount
            && Distinct(w)
  {
    RunKeepsBooks(EMPTY_WORLD, ops);
  }

  // -------------------------------------------------------------- keys that live

  lemma {:induction false} RunKeepsSequence(w: World, ops: seq<Op>, key: (DeviceId, TokenId))
    requires PosedRun(w, ops) && InSequence(w, key)
    requires forall i | 0 <= i < |ops| && ops[i].LapseOp? :: key !in ops[i].keys
    ensures InSequence(Run(w, ops), key)
    decreases |ops|
  {
    if ops != [] {
      if ops[0].SyncOp? {
        BatchKeepsSequence(w, ops[0].txs, ops[0].dir, ops[0].times, key);
      }
      RunKeepsSequence(Step(w, ops[0]), ops[1..], key);
    }
  }

  /** As long as the key of a device and token does not lapse, the sequence numbers of their
      accepted transactions strictly increase. */
  lemma {:induction false} ReachableIsInSequence(ops: seq<Op>, key: (DeviceId, TokenId))
    requires PosedRun(EMPTY_WORLD, ops)
    requires forall i | 0 <= i < |ops| && ops[i].LapseOp? :: key !in ops[i].keys
    ensures InSequence(Run(EMPTY_WORLD, ops), key)
  {
    RunKeepsSequence(EMPTY_WORLD, ops, key);
  }

  lemma {:induction false} StoredStays(w: World, op: Op)
    requires Posed(w, op)
    ensures w.txs <= Step(w, op).txs
  {
    if op.SyncOp? {
      BatchGrows(w, op.txs, op.dir, op.times);
    }
  }

  lemma {:induction false} RunKeepsNonce(w: World, ops: seq<Op>, nonce: Nonce)
    requires PosedRun(w, ops)
    ensures w.txs <= Run(w, ops).txs
    ensures nonce in w.nonces && (forall i | 0 <= i < |ops| && ops[i].LapseOp? :: nonce !in ops[i].nonces) ==>
              nonce in Run(w, ops).nonces
    decreases |ops|
  {
    if ops != [] {
      StoredStays(w, ops[0]);
      if ops[0].SyncOp? {
        BatchGrows(w, ops[0].txs, ops[0].dir, ops[0].times);
      }
      RunKeepsNonce(Step(w, ops[0]), ops[1..], nonce);
    }
  }

  /** A nonce is good for one attempt.  Under that of an accepted element nothing is ever
      accepted again, lapse or not; and an element turned away for its sequence number has
      used its nonce up for as long as the key lives. */
  lemma {:induction false} NonceServesOnce(w: World, tx: RawTx, dir: Directory, now: Instant, ops: seq<Op>,
          next: RawTx, dir': Directory, later: Instant)
    requires Process(w, tx, dir, now).1 in {Some(Accepted), Some(Rejected(StaleSequence))}
    requires PosedRun(Process(w, tx, dir, now).0, ops) && next.nonce == tx.nonce
    requires Process(w, tx, dir, now).1 == Some(Accepted)
             || forall i | 0 <= i < |ops| && ops[i].LapseOp? :: tx.nonce !in ops[i].nonces
    ensures Process(Run(Process(w, tx, dir, now).0, ops), next, dir', later).1 != Some(Accepted)
  {
    var (after, v) := Process(w, tx, dir, now);
    AcceptedIff(w, tx, dir, now);
    assert tx.nonce in after.nonces;
    assert v == Some(Accepted) ==> after.txs == w.txs + [Stored(tx)];
    hide Process, Run, PosedRun;
    var final := Run(after, ops);
    RunKeepsNonce(after, ops, tx.nonce);
    AcceptedIff(final, next, dir', later);
    if v == Some(Accepted) {
      assert final.txs[|w.txs|].nonce == tx.nonce;
    }
  }

  /** An element accepted before the one that made its batch raise is lost: it is not
      stored, and nothing is accepted under its nonce for as long as the key lives. */
  lemma {:induction false} RaisedIsLost(w: World, txs: seq<RawTx>, dir: Directory, times: seq<Instant>, i: nat,
          ops: seq<Op>, next: RawTx, dir': Directory, later: Instant)
    requires |txs| == |times| && Batch(w, txs, dir, times).raised
    requires i < |Batch(w, txs, dir, times).verdicts| && Batch(w, txs, dir, times).verdicts[i].Accepted?
    requires PosedRun(Batch(w, txs, dir, times).world, ops)
    requires forall k | 0 <= k < |ops| && ops[k].LapseOp? :: next.nonce !in ops[k].nonces
    ensures i < |txs| && !Exists(Batch(w, txs, dir, times).world.txs, txs[i].txId)
    ensures next.nonce == txs[i].nonce ==>
              Process(Run(Batch(w, txs, dir, times).world, ops), next, dir', later).1 != Some(Accepted)
  {
    hide Process, Run, PosedRun, Batch;
    RaisedLosesAccepted(w, txs, dir, times, i);
    RunKeepsNonce(Batch(w, txs, dir, times).world, ops, next.nonce);
    AcceptedIff(Run(Batch(w, txs, dir, times).world, ops), next, dir', later);
  }

  // -------------------------------------------------------------- conservation

  /** What an operation brings in from, or sends out of, the system. */
  function Flow(w: World, op: Op): int {
    match op
    case CreditOp(_, amount) => if amount > 0 then amount else 0
    case DebitOp(u, amount, overdraft) =>
      if amount > 0 && (overdraft || amount <= Row(w.bank, u).available) then -amount else 0
    case _ => 0
  }

  ghost function TotalFlow(w: World, ops: seq<Op>): int
    requires PosedRun(w, ops)
    decreases |ops|
  {
    if ops == [] then 0 else Flow(w, ops[0]) + TotalFlow(Step(w, ops[0]), ops[1..])
  }

  lemma {:induction false} ProvisionFlow(b: Bank, u: UserId, requested: int, clearance: Clearance, now: Instant)
    ensures Money(Provision(b, u, requested, clearance, now).bank) == Money(b)
  {
    var row := Row(b, u);
    TotalUpdate(b, u, row, Available);
    TotalUpdate(b, u, row, Locked);
    if clearance.Cleared? {
      var limit := Min(requested, clearance.maxToken);
      PostMoney(b, u, Balance(row.available - limit, row.locked + limit), DebitEntry, limit, Issue);
    }
  }

  lemma {:induction false} StepConserves(w: World, op: Op)
    requires Posed(w, op)
    ensures Money(Step(w, op).bank) == Money(w.bank) + Flow(w, op)
  {
    hide Batch, Total;
    var b := w.bank;
    match op
    case CreditOp(u, amount) =>
      if 0 < amount {
        CreditMoney(b, u, amount);
      }
    case DebitOp(u, amount, overdraft) => DebitMoney(b, u, amount, overdraft);
    case TransferOp(payer, payee, amount) => TransferConserves(b, payer, payee, amount);
    case ProvisionOp(u, requested, clearance, now) => ProvisionFlow(b, u, requested, clearance, now);
    case RevokeOp(t) => if t < |b.tokens| { CloseTotals(b, t, Revoked); }
    case RefundOp(t) => if t < |b.tokens| { CloseTotals(b, t, Expired); }
    case ExpireOp(rows, _) => ExpireRowsLedger(b, rows);
    case _ => QuietSteps(w, op);
  }

  /** Over any run from any state the money in the system changes by external credits and
      debits alone. */
  lemma {:induction false} RunConserves(w: World, ops: seq<Op>)
    requires PosedRun(w, ops)
    ensures Money(Run(w, ops).bank) == Money(w.bank) + TotalFlow(w, ops)
    decreases |ops|
  {
    if ops != [] {
      StepConserves(w, ops[0]);
      RunConserves(Step(w, ops[0]), ops[1..]);
    }
  }

  // -------------------------------------------------------------- no overdraft

  ghost predicate InCredit(b: Bank, column: Column) {
    forall u: UserId :: 0 <= Read(Row(b, u), column)
  }

  lemma {:induction false} CloseInCredit(b: Bank, t: TokenId, status: Status)
    requires InCredit(b, Locked) && t < |b.tokens|
    ensures InCredit(Close(b, t, status), Locked)
    ensures InCredit(b, Available) ==> InCredit(Close(b, t, status), Available)
  {
    assert 0 <= Read(Row(b, b.tokens[t].user), Locked);
    forall u: UserId, column
      ensures Read(Row(Close(b, t, status), u), column) >= Min(0, Read(Row(b, u), column))
    {
      CloseRow(b, t, status, u);
    }
  }

  lemma {:induction false} ExpireRowsInCredit(b: Bank, rows: seq<TokenId>)
    requires InCredit(b, Locked) && Rows(rows, b.tokens)
    ensures InCredit(ExpireRows(b, rows), Locked)
    ensures InCredit(b, Available) ==> InCredit(ExpireRows(b, rows), Available)
  {
    if rows != [] {
      hide InCredit, Close;
      var n := |rows| - 1;
      ExpireRowsInCredit(b, rows[..n]);
      CloseInCredit(ExpireRows(b, rows[..n]), rows[n], Expired);
    }
  }

  lemma {:induction false} SameRowsInCredit(b: Bank, b': Bank, column: Column)
    requires InCredit(b, column) && b'.balances == b.balances
    ensures InCredit(b', column)
  {
    assert forall u: UserId :: Row(b', u) == Row(b, u);
  }

  lemma {:induction false} PlainStepInCredit(w: World, op: Op, column: Column)
    requires op.CreditOp? || op.DebitOp? || op.TransferOp? || op.ProvisionOp?
    requires InCredit(w.bank, column) && (column.Available? ==> !(op.DebitOp? && op.overdraft))
    ensures InCredit(Step(w, op).bank, column)
  {
    var b, b' := w.bank, Step(w, op).bank;
    forall u: UserId ensures 0 <= Read(Row(b', u), column) {
      assert 0 <= Read(Row(b, u), column);
    }
  }

  lemma {:induction false} PlainInCredit(w: World, op: Op)
    requires op.CreditOp? || op.DebitOp? || op.TransferOp? || op.ProvisionOp?
    requires InCredit(w.bank, Locked)
    ensures InCredit(Step(w, op).bank, Locked)
    ensures InCredit(w.bank, Available) && !(op.DebitOp? && op.overdraft) ==> InCredit(Step(w, op).bank, Available)
  {
    PlainStepInCredit(w, op, Locked);
    if InCredit(w.bank, Available) && !(op.DebitOp? && op.overdraft) {
      PlainStepInCredit(w, op, Available);
    }
  }

  lemma {:induction false} StepInCredit(w: World, op: Op)
    requires Posed(w, op) && InCredit(w.bank, Locked)
    ensures InCredit(Step(w, op).bank, Locked)
    ensures InCredit(w.bank, Available) && !(op.DebitOp? && op.overdraft) ==> InCredit(Step(w, op).bank, Available)
  {
    hide Batch, InCredit;
    var b := w.bank;
    match op
    case RevokeOp(t) => if t < |b.tokens| { CloseInCredit(b, t, Revoked); }
    case RefundOp(t) => if t < |b.tokens| { CloseInCredit(b, t, Expired); }
    case ExpireOp(rows, _) => ExpireRowsInCredit(b, rows);
    case CreditOp(_, _) => PlainInCredit(w, op);
    case DebitOp(_, _, _) => PlainInCredit(w, op);
    case TransferOp(_, _, _) => PlainInCredit(w, op);
    case ProvisionOp(_, _, _, _) => PlainInCredit(w, op);
    case _ =>
      QuietSteps(w, op);
      SameRowsInCredit(b, Step(w, op).bank, Locked);
      if InCredit(b, Available) {
        SameRowsInCredit(b, Step(w, op).bank, Available);
      }
  }

  /** No run takes anybody's locked balance below zero, and none without overdrafts takes
      anybody's available balance there. */
  lemma {:induction false} RunStaysInCredit(w: World, ops: seq<Op>)
    requires PosedRun(w, ops) && InCredit(w.bank, Locked)
    ensures InCredit(Run(w, ops).bank, Locked)
    ensures InCredit(w.bank, Available) && (forall i | 0 <= i < |ops| :: !(ops[i].DebitOp? && ops[i].overdraft)) ==>
              InCredit(Run(w, ops).bank, Available)
    decreases |ops|
  {
    if ops != [] {
      hide InCredit;
      StepInCredit(w, ops[0]);
      RunStaysInCredit(Step(w, ops[0]), ops[1..]);
    }
  }

  // ------------------------------------------------------------- closed tokens

  ghost predicate SameOnceClosed(b: Bank, b': Bank) {
    && |b.tokens| <= |b'.tokens|
    && forall t | 0 <= t < |b.tokens| && b.tokens[t].Closed() ::
         b'.tokens[t].Closed() && b'.tokens[t].(status := b.tokens[t].status) == b.tokens[t]
  }

  lemma {:induction false} StepFreezesClosed(w: World, op: Op)
    requires Posed(w, op)
    ensures SameOnceClosed(w.bank, Step(w, op).bank)
  {
    hide Batch;
    match op
    case SyncOp(txs, dir, times) => BatchGrows(w, txs, dir, times);
    case CutoffOp(rows, now) =>
      forall t: TokenId | t < |w.bank.tokens|
        ensures CutoffRows(w.bank, rows).tokens[t] == WithStatus(w.bank.tokens[t], t in rows, SpendLocked)
      {
        CutoffRowsTokens(w.bank, rows, t);
      }
    case ExpireOp(rows, now) =>
      forall t: TokenId | t < |w.bank.tokens|
        ensures ExpireRows(w.bank, rows).tokens[t] == WithStatus(w.bank.tokens[t], t in rows, Expired)
      {
        ExpireRowsTokens(w.bank, rows, t);
      }
    case _ =>
  }

  /** Once expired or revoked, a token stays closed and its usage is frozen, whatever
      callers do. */
  lemma {:induction false} FrozenForGood(w: World, ops: seq<Op>, t: TokenId)
    requires PosedRun(w, ops) && t < |w.bank.tokens| && w.bank.tokens[t].Closed()
    ensures var b := Run(w, ops).bank;
            && t < |b.tokens| && b.tokens[t].Closed()
            && b.tokens[t].used == w.bank.tokens[t].used && b.tokens[t].amount == w.bank.tokens[t].amount
    decreases |ops|
  {
    if ops != [] {
      StepFreezesClosed(w, ops[0]);
      FrozenForGood(Step(w, ops[0]), ops[1..], t);
    }
  }

  // ------------------------------------------------- with a little care taken

  /** No element in turn takes the usage of its token below zero. */
  ghost predicate LegalBatch(w: World, txs: seq<RawTx>, dir: Directory, times: seq<Instant>)
    requires |txs| == |times|
  {
    if txs == [] then true
    else
      var n := |txs| - 1;
      var before := Batch(w, txs[..n], dir, times[..n]);
      && LegalBatch(w, txs[..n], dir, times[..n])
      && !(Acceptable(before.world, txs[n], dir, times[n])
           && before.world.bank.tokens[txs[n].token].used + txs[n].amount < 0)
  }

  /** Callers keep off taking usage below zero and refunding a revoked token again.  A batch
      that raises does no harm. */
  ghost predicate Careful(w: World, op: Op) {
    && Posed(w, op)
    && match op
       case SpendOp(t, amount, now) => !Undershoots(w.bank, t, amount, now)
       case RefundOp(t) => !RefundsAgain(w.bank, t)
       case SyncOp(txs, dir, times) => Batch(w, txs, dir, times).raised || LegalBatch(w, txs, dir, times)
       case _ => true
  }

  /** And off expiring unspent tokens in bulk, which refunds nobody. */
  ghost predicate Legal(w: World, op: Op) {
    Careful(w, op) && (op.BulkExpireOp? ==> NothingLost(w.bank, op.now))
  }

  ghost predicate CarefulRun(w: World, ops: seq<Op>)
    ensures CarefulRun(w, ops) ==> PosedRun(w, ops)
    decreases |ops|
  {
    ops == [] || (Careful(w, ops[0]) && CarefulRun(Step(w, ops[0]), ops[1..]))
  }

  ghost predicate LegalRun(w: World, ops: seq<Op>)
    ensures LegalRun(w, ops) ==> CarefulRun(w, ops)
    decreases |ops|
  {
    ops == [] || (Legal(w, ops[0]) && LegalRun(Step(w, ops[0]), ops[1..]))
  }

  // ------------------------------------------------------------ careful runs

  lemma {:induction false} ProcessKeepsBacked(w: World, tx: RawTx, dir: Directory, now: Instant)
    requires Backed(w.bank)
    requires !(Acceptable(w, tx, dir, now) && w.bank.tokens[tx.token].used + tx.amount < 0)
    ensures Backed(Process(w, tx, dir, now).0.bank)
  {
    AcceptedIff(w, tx, dir, now);
    if Acceptable(w, tx, dir, now) {
      var row := w.bank.tokens[tx.token];
      LiveUpdateKeepsBacked(w.bank, tx.token, row.(used := row.used + tx.amount));
    }
  }

  lemma {:induction false} BatchKeepsBacked(w: World, txs: seq<RawTx>, dir: Directory, times: seq<Instant>)
    requires Backed(w.bank) && |txs| == |times| && !Batch(w, txs, dir, times).raised
    requires LegalBatch(w, txs, dir, times)
    ensures Backed(Batch(w, txs, dir, times).world.bank)
  {
    if txs != [] {
      hide Backed, Process, Batch;
      var n := |txs| - 1;
      var before := Batch(w, txs[..n], dir, times[..n]);
      BatchStep(w, txs, dir, times);
      BatchKeepsBacked(w, txs[..n], dir, times[..n]);
      ProcessKeepsBacked(before.world, txs[n], dir, times[n]);
    }
  }

  lemma {:induction false} SyncKeepsBacked(w: World, txs: seq<RawTx>, dir: Directory, times: seq<Instant>)
    requires Backed(w.bank) && Careful(w, SyncOp(txs, dir, times))
    ensures Backed(Batch(w, txs, dir, times).world.bank)
  {
    hide Backed, Batch;
    if Batch(w, txs, dir, times).raised {
      RaisedAt(w, txs, dir, times);
    } else {
      BatchKeepsBacked(w, txs, dir, times);
    }
  }

  lemma {:induction false} LockedUntouched(w: World, op: Op)
    requires op.CreditOp? || op.DebitOp? || op.TransferOp?
    ensures var b' := Step(w, op).bank;
            b'.tokens == w.bank.tokens && forall u: UserId :: Row(b', u).locked == Row(w.bank, u).locked
  {
  }

  lemma {:induction false} ProvisionKeepsBacked(b: Bank, u: UserId, requested: int, clearance: Clearance, now: Instant)
    requires Backed(b)
    ensures Backed(Provision(b, u, requested, clearance, now).bank)
  {
    hide Backed;
    ProvisionIs(b, u, requested, clearance, now);
    var r := Provision(b, u, requested, clearance, now);
    if r.error.None? {
      IssueKeepsBacked(b, r.bank.tokens[|b.tokens|]);
    } else {
      SameLockedBacked(b, Opened(b, u));
    }
  }

  /** What tokens account for stays locked in every careful step, the lossy bulk expiry
      included. */
  lemma {:induction false} StepKeepsBacked(w: World, op: Op)
    requires Backed(w.bank) && Careful(w, op)
    ensures Backed(Step(w, op).bank)
  {
    hide Backed, Batch, Undershoots, RefundsAgain, LegalBatch;
    var b := w.bank;
    match op
    case ProvisionOp(u, requested, clearance, now) => ProvisionKeepsBacked(b, u, requested, clearance, now);
    case SpendOp(t, amount, now) => RecordSpendKeepsBacked(b, t, amount, now);
    case RevokeOp(t) =>
      if t < |b.tokens| && !b.tokens[t].Closed() {
        CloseKeepsBacked(b, t, Revoked);
      }
    case RefundOp(t) => RefundKeepsBacked(b, t);
    case CutoffOp(rows, now) => CutoffKeepsBacked(b, rows);
    case ExpireOp(rows, now) => ExpireRowsPaysReported(b, rows);
    case BulkExpireOp(now) => BulkExpireKeepsBacked(b, now);
    case SyncOp(txs, dir, times) => SyncKeepsBacked(w, txs, dir, times);
    case LapseOp(_, _) =>
    case _ =>
      LockedUntouched(w, op);
      SameLockedBacked(b, Step(w, op).bank);
  }

  lemma {:induction false} RunKeepsBacked(w: World, ops: seq<Op>)
    requires Backed(w.bank) && CarefulRun(w, ops)
    ensures Backed(Run(w, ops).bank)
    decreases |ops|
  {
    if ops != [] {
      hide Backed;
      StepKeepsBacked(w, ops[0]);
      RunKeepsBacked(Step(w, ops[0]), ops[1..]);
    }
  }

  /** In every state a careful run from empty tables can reach, closing any token that is
      still live pays out its unspent part in full: the clamp to what is locked never
      bites. */
  lemma {:induction false} ReachableClampIsIdle(ops: seq<Op>, t: TokenId)
    requires CarefulRun(EMPTY_WORLD, ops) && t < |Run(EMPTY_WORLD, ops).bank.tokens|
    requires !Run(EMPTY_WORLD, ops).bank.tokens[t].Closed()
    ensures var b := Run(EMPTY_WORLD, ops).bank;
            b.tokens[t].Unused() <= Row(b, b.tokens[t].user).locked
  {
    RunKeepsBacked(EMPTY_WORLD, ops);
    ClampIdle(Run(EMPTY_WORLD, ops).bank, t);
  }

  /** In every such state the expiry sweep reports the truth: the total it sums up from
      unclamped amounts is what all users together gained in available balance and lost in
      locked balance. */
  lemma {:induction false} ReachableSweepIsTruthful(ops: seq<Op>, rows: seq<TokenId>, now: Instant)
    requires CarefulRun(EMPTY_WORLD, ops)
    requires Selects(ExpirySweep, rows, Run(EMPTY_WORLD, ops).bank.tokens, now)
    ensures var b := Run(EMPTY_WORLD, ops).bank;
            var b' := ExpireRows(b, rows);
            ReportedRefund(b.tokens, rows)
              == Total(b'.balances, Available) - Total(b.balances, Available)
              == Total(b.balances, Locked) - Total(b'.balances, Locked)
  {
    hide Total, ExpireRows;
    RunKeepsBacked(EMPTY_WORLD, ops);
    ExpireRowsPaysReported(Run(EMPTY_WORLD, ops).bank, rows);
  }

  // -------------------------------------------------------------- legal runs

  /** Every table and key is consistent with every other. */
  ghost predicate Sound(w: World) {
    Coupled(w.bank) && Traced(w)
  }

  lemma {:induction false} BatchKeepsCoupled(w: World, txs: seq<RawTx>, dir: Directory, times: seq<Instant>)
    requires Coupled(w.bank) && |txs| == |times| && !Batch(w, txs, dir, times).raised
    requires LegalBatch(w, txs, dir, times)
    ensures Coupled(Batch(w, txs, dir, times).world.bank)
  {
    if txs != [] {
      hide Coupled, Process, Batch;
      var n := |txs| - 1;
      var before := Batch(w, txs[..n], dir, times[..n]);
      BatchStep(w, txs, dir, times);
      BatchKeepsCoupled(w, txs[..n], dir, times[..n]);
      ProcessKeepsIff(before.world, txs[n], dir, times[n]);
    }
  }

  lemma {:induction false} SyncKeepsCoupled(w: World, txs: seq<RawTx>, dir: Directory, times: seq<Instant>)
    requires Coupled(w.bank) && Legal(w, SyncOp(txs, dir, times))
    ensures Coupled(Batch(w, txs, dir, times).world.bank)
  {
    hide Coupled, Batch;
    if Batch(w, txs, dir, times).raised {
      RaisedAt(w, txs, dir, times);
    } else {
      BatchKeepsCoupled(w, txs, dir, times);
    }
  }

  lemma {:induction false} StepKeepsCoupled(w: World, op: Op)
    requires Coupled(w.bank) && Legal(w, op)
    ensures Coupled(Step(w, op).bank)
  {
    hide Coupled, LedgerSound, Batch;
    var b := w.bank;
    match op
    case CreditOp(u, amount) => CreditKeeps(b, u, amount);
    case DebitOp(u, amount, overdraft) => DebitKeeps(b, u, amount, overdraft);
    case TransferOp(payer, payee, amount) => TransferKeeps(b, payer, payee, amount);
    case ProvisionOp(u, requested, clearance, now) => ProvisionKeeps(b, u, requested, clearance, now);
    case SpendOp(t, amount, now) => RecordSpendKeepsIff(b, t, amount, now);
    case RevokeOp(t) => RevokeKeeps(b, t);
    case RefundOp(t) => RefundSpecificKeepsIff(b, t);
    case CutoffOp(rows, now) => CutoffKeeps(b, rows);
    case ExpireOp(rows, now) =>
      CoupledIsBacked(b);
      ExpireRowsPaysReported(b, rows);
    case BulkExpireOp(now) => BulkExpireKeepsIff(b, now);
    case LapseOp(_, _) =>
    case SyncOp(txs, dir, times) => SyncKeepsCoupled(w, txs, dir, times);
  }

  /** Each step whose caller takes that care keeps every table and key consistent with
      every other. */
  lemma {:induction false} StepKeeps(w: World, op: Op)
    requires Sound(w) && Legal(w, op)
    ensures Sound(Step(w, op))
  {
    hide Coupled, Traced, Batch;
    StepKeepsCoupled(w, op);
    StepKeepsTraced(w, op);
  }

  lemma {:induction false} LegalElement(w: World, txs: seq<RawTx>, dir: Directory, times: seq<Instant>)
    requires Coupled(w.bank) && |txs| == |times| <= 1 && !Legal(w, SyncOp(txs, dir, times))
    ensures !Coupled(Batch(w, txs, dir, times).world.bank)
  {
    hide Coupled;
    if txs != [] {
      assert txs == [txs[0]] && times == [times[0]] && txs[..0] == [] && times[..0] == [];
      assert LegalBatch(w, [], dir, []) && Batch(w, [], dir, []).world == w;
      SingleBatch(w, txs[0], dir, times[0]);
      ProcessKeepsIff(w, txs[0], dir, times[0]);
    }
  }

  /** And none other does, save for what elements of one batch make up for each other: for
      every step but a batch of several elements the condition is exact. */
  lemma {:induction false} LegalIsExact(w: World, op: Op)
    requires Sound(w) && Posed(w, op) && (op.SyncOp? ==> |op.txs| <= 1)
    ensures Sound(Step(w, op)) <==> Legal(w, op)
  {
    if Legal(w, op) {
      StepKeeps(w, op);
    } else {
      hide Coupled, UsageAccounted, Distinct, Batch;
      match op
      case SpendOp(t, amount, now) => RecordSpendKeepsIff(w.bank, t, amount, now);
      case RefundOp(t) => RefundSpecificKeepsIff(w.bank, t);
      case BulkExpireOp(now) => BulkExpireKeepsIff(w.bank, now);
      case SyncOp(txs, dir, times) => LegalElement(w, txs, dir, times);
      case _ =>
    }
  }

  lemma {:induction false} RunKeeps(w: World, ops: seq<Op>)
    requires Sound(w) && LegalRun(w, ops)
    ensures Sound(Run(w, ops))
    decreases |ops|
  {
    if ops != [] {
      StepKeeps(w, ops[0]);
      RunKeeps(Step(w, ops[0]), ops[1..]);
    }
  }

  lemma {:induction false} EmptyIsSound()
    ensures Sound(EMPTY_WORLD)
  {
  }

  /** In every state such a run from empty tables can reach, and for every user: what is
      locked is the sum over the user's tokens, and no usage and nothing locked is
      negative. */
  lemma {:induction false} ReachableIsCoupled(ops: seq<Op>, u: UserId)
    requires LegalRun(EMPTY_WORLD, ops)
    ensures var b := Run(EMPTY_WORLD, ops).bank;
            && Row(b, u).locked == HeldBy(b.tokens, u) >= 0
            && TokensSound(b.tokens)
            && RefundsExact(b)
  {
    EmptyIsSound();
    RunKeeps(EMPTY_WORLD, ops);
    var b := Run(EMPTY_WORLD, ops).bank;
    assert Covered(b, u);
    HeldByNonNegative(b.tokens, u);
  }

  /** What was used of a closed token and what was refunded for it make up its amount for
      good. */
  lemma {:induction false} ClosedForGood(w: World, ops: seq<Op>, t: TokenId)
    requires Sound(w) && LegalRun(w, ops) && t < |w.bank.tokens| && w.bank.tokens[t].Closed()
    ensures var b := Run(w, ops).bank;
            && t < |b.tokens| && b.tokens[t].Closed()
            && b.tokens[t].used == w.bank.tokens[t].used
            && b.tokens[t].used + Refunded(b.entries, t) == w.bank.tokens[t].amount
  {
    RunKeeps(w, ops);
    FrozenForGood(w, ops, t);
    assert RefundMatches(Run(w, ops).bank, t);
  }
}
