/** Runs from empty tables to inputs at which something one would expect does not hold.
    For each, the condition under which it does is proved elsewhere. */
module Witnesses {
  import opened Types
  import opened Sums
  import opened Ledger
  import opened Tokens
  import opened Coupling
  import opened Sweeps
  import opened Sync
  import opened System
  import C = Coverage
  import P = Settlement

  const LIMITS := Cleared(500, 24)
  const DIR := Directory({1, 2}, {1})

  function Fresh(amount: int, used: int): Token {
    Token(1, amount, used, Active, SPEND_SECONDS, 86400)
  }

  // -------------------------------------------------------- stepping through runs

  lemma {:induction false} Ends(w: World, ops: seq<Op>)
    ensures LegalRun(w, ops[|ops|..]) && Run(w, ops[|ops|..]) == w
  {
  }

  lemma {:induction false} Unroll(w: World, ops: seq<Op>, i: nat)
    requires i < |ops| && Legal(w, ops[i]) && LegalRun(Step(w, ops[i]), ops[i + 1..])
    ensures LegalRun(w, ops[i..]) && Run(w, ops[i..]) == Run(Step(w, ops[i]), ops[i + 1..])
  {
    assert ops[i..][0] == ops[i] && ops[i..][1..] == ops[i + 1..];
  }

  lemma {:induction false} JointEnds(j: C.Joint, moves: seq<C.Move>)
    ensures C.CarefulRun(j, moves[|moves|..]) && C.Run(j, moves[|moves|..]) == j
  {
  }

  lemma {:induction false} JointUnroll(j: C.Joint, moves: seq<C.Move>, i: nat)
    requires i < |moves| && C.Careful(j, moves[i]) && C.CarefulRun(C.Moved(j, moves[i]), moves[i + 1..])
    ensures C.CarefulRun(j, moves[i..]) && C.Run(j, moves[i..]) == C.Run(C.Moved(j, moves[i]), moves[i + 1..])
  {
    assert moves[i..][0] == moves[i] && moves[i..][1..] == moves[i + 1..];
  }

  lemma {:induction false} Provisions(b: Bank, amount: int)
    requires 0 < amount <= 500 && amount <= Row(b, 1).available
    ensures var b' := Provision(b, 1, amount, LIMITS, 0).bank;
            && b'.tokens == b.tokens + [Fresh(amount, 0)]
            && Row(b', 1) == Balance(Row(b, 1).available - amount, Row(b, 1).locked + amount)
  {
  }

  lemma {:induction false} Revokes(b: Bank)
    requires |b.tokens| > 0 && b.tokens[0] == Fresh(500, 0) && 500 <= Row(b, 1).locked
    ensures var b' := Revoke(b, 0).bank;
            && b'.tokens == b.tokens[0 := Fresh(500, 0).(status := Status.Revoked)]
            && Row(b', 1) == Balance(Row(b, 1).available + 500, Row(b, 1).locked - 500)
  {
  }

  // ------------------------------------------------- where coupling is lost

  /** One revoked, unspent token and one live one. */
  const REVOKED: seq<Op> :=
    [CreditOp(1, 1000), ProvisionOp(1, 500, LIMITS, 0), ProvisionOp(1, 300, LIMITS, 0), RevokeOp(0)]

  /** Lowers the usage of the live token. */
  const TAKEN_BACK := RawTx(1, 1, Some(1), Some(2), -1, 1, 1, Some(1), {})

  ghost predicate Revoked(w: World) {
    && w.bank.tokens == [Fresh(500, 0).(status := Status.Revoked), Fresh(300, 0)]
    && Row(w.bank, 1) == Balance(700, 300)
    && w.txs == [] && w.nonces == {} && w.sequences == map[]
  }

  lemma {:induction false} RevokedSteps()
    ensures var w1 := Step(EMPTY_WORLD, REVOKED[0]);
            var w2 := Step(w1, REVOKED[1]);
            var w3 := Step(w2, REVOKED[2]);
            w1.txs == w2.txs == w3.txs == [] && Revoked(Step(w3, REVOKED[3]))
  {
    var w1 := Step(EMPTY_WORLD, REVOKED[0]);
    assert Row(w1.bank, 1) == Balance(1000, 0) && w1.bank.tokens == [];
    hide Row, Provision, Revoke;
    var w2 := Step(w1, REVOKED[1]);
    Provisions(w1.bank, 500);
    var w3 := Step(w2, REVOKED[2]);
    Provisions(w2.bank, 300);
    Revokes(w3.bank);
  }

  lemma {:induction false} RevokedState()
    ensures LegalRun(EMPTY_WORLD, REVOKED[0..]) && Revoked(Run(EMPTY_WORLD, REVOKED[0..]))
  {
    hide LegalRun, Run, Revoked;
    RevokedSteps();
    var w1 := Step(EMPTY_WORLD, REVOKED[0]);
    var w2 := Step(w1, REVOKED[1]);
    var w3 := Step(w2, REVOKED[2]);
    var w4 := Step(w3, REVOKED[3]);
    hide Step;
    Ends(w4, REVOKED);
    Unroll(w3, REVOKED, 3);
    Unroll(w2, REVOKED, 2);
    Unroll(w1, REVOKED, 1);
    Unroll(EMPTY_WORLD, REVOKED, 0);
  }

  /** From there, refunding the revoked token by hand, taking usage below zero by a spend
      or in a batch, and expiring the unspent one in bulk each break the tables apart. */
  lemma {:induction false} EachGuardIsNeeded(op: Op)
    requires op in {RefundOp(0), SpendOp(1, -1, 0), SyncOp([TAKEN_BACK], DIR, [0]), BulkExpireOp(86401)}
    ensures LegalRun(EMPTY_WORLD, REVOKED[0..])
    ensures var w := Run(EMPTY_WORLD, REVOKED[0..]);
            Sound(w) && Posed(w, op) && !Coupled(Step(w, op).bank)
  {
    hide Coupled, Traced, LegalRun, CarefulRun, PosedRun, Run;
    RevokedState();
    var w := Run(EMPTY_WORLD, REVOKED[0..]);
    EmptyIsSound();
    RunKeeps(EMPTY_WORLD, REVOKED[0..]);
    match op
    case RefundOp(_) => RefundSpecificKeepsIff(w.bank, 0);
    case SpendOp(_, _, _) => RecordSpendKeepsIff(w.bank, 1, -1, 0);
    case BulkExpireOp(_) => BulkExpireKeepsIff(w.bank, 86401);
    case SyncOp(_, _, _) => TakenBackUncouples(w);
  }

  lemma {:induction false} TakenBackUncouples(w: World)
    requires Coupled(w.bank) && |w.bank.tokens| == 2 && w.bank.tokens[1] == Fresh(300, 0)
    requires w.txs == [] && w.nonces == {} && w.sequences == map[]
    ensures !Coupled(Batch(w, [TAKEN_BACK], DIR, [0]).world.bank)
  {
    hide Coupled, Process, Batch;
    assert Acceptable(w, TAKEN_BACK, DIR, 0);
    AcceptedIff(w, TAKEN_BACK, DIR, 0);
    SingleBatch(w, TAKEN_BACK, DIR, 0);
    ProcessKeepsIff(w, TAKEN_BACK, DIR, 0);
  }

  // ---------------------------------------------- where a batch is not idempotent

  /** One token of 500, so much of it used; these ids stored, each under the nonce of the
      same number; these nonces claimed; this the last sequence number. */
  ghost predicate At(w: World, used: int, ids: set<TxId>, nonces: set<Nonce>, last: Option<int>) {
    && w.bank.tokens == [Fresh(500, used)]
    && (forall id: TxId :: Exists(w.txs, id) <==> id in ids)
    && (forall nonce: Nonce :: NonceStored(w.txs, nonce) <==> nonce in ids)
    && w.nonces == nonces
    && (if last.None? then (1, 0) !in w.sequences
        else (1, 0) in w.sequences && w.sequences[(1, 0)] == last.value)
  }

  function Element(id: TxId, amount: int, sequence: int): RawTx {
    RawTx(id, 0, Some(1), Some(2), amount, id, sequence, Some(1), {})
  }

  lemma {:induction false} Answers(w: World, used: int, ids: set<TxId>, nonces: set<Nonce>, last: Option<int>,
          id: TxId, amount: int, sequence: int)
    requires At(w, used, ids, nonces, last) && amount != 0 && sequence != 0
    requires last.Some? ==> last.value < sequence
    ensures var (w', v) := Process(w, Element(id, amount, sequence), DIR, 0);
            if id in ids then v == Some(Duplicate) && w' == w
            else if amount > 500 - used then v == Some(Rejected(InsufficientTokenLimit)) && w' == w
            else if id in nonces then v == Some(Rejected(ReplayDetected)) && w' == w
            else v == Some(Accepted) && w' == Book(w, Element(id, amount, sequence))
  {
  }

  lemma {:induction false} Duplicates(w: World, used: int, ids: set<TxId>, nonces: set<Nonce>, last: Option<int>,
          id: TxId, amount: int, sequence: int)
    requires At(w, used, ids, nonces, last) && id in ids
    ensures Process(w, Element(id, amount, sequence), DIR, 0) == (w, Some(Duplicate))
  {
  }

  lemma {:induction false} Replays(w: World, used: int, ids: set<TxId>, nonces: set<Nonce>, last: Option<int>,
          id: TxId, amount: int, sequence: int)
    requires At(w, used, ids, nonces, last) && id !in ids && id in nonces
    requires amount != 0 && sequence != 0 && amount <= 500 - used
    ensures Process(w, Element(id, amount, sequence), DIR, 0) == (w, Some(Rejected(ReplayDetected)))
  {
  }

  lemma {:induction false} Books(w: World, used: int, ids: set<TxId>, nonces: set<Nonce>, last: Option<int>,
          id: TxId, amount: int, sequence: int)
    requires At(w, used, ids, nonces, last)
    ensures |w.bank.tokens| == 1
    ensures At(Book(w, Element(id, amount, sequence)), used + amount, ids + {id}, nonces + {id}, Some(sequence))
  {
    var tx := Element(id, amount, sequence);
    var w' := Book(w, tx);
    assert w'.txs == w.txs + [Stored(tx)];
    forall other: TxId ensures Exists(w'.txs, other) <==> Exists(w.txs, other) || other == id {
      ExistsAppend(w.txs, Stored(tx), other);
    }
    forall nonce: Nonce ensures NonceStored(w'.txs, nonce) <==> NonceStored(w.txs, nonce) || nonce == id {
      NonceAppend(w.txs, Stored(tx), nonce);
    }
  }

  lemma {:induction false} ExistsAppend(txs: seq<Transaction>, tx: Transaction, id: TxId)
    ensures Exists(txs + [tx], id) <==> Exists(txs, id) || tx.txId == id
  {
    assert (txs + [tx])[|txs|] == tx;
    if Exists(txs, id) {
      ExistsGrows(txs, txs + [tx], id);
    }
  }

  lemma {:induction false} NonceAppend(txs: seq<Transaction>, tx: Transaction, nonce: Nonce)
    ensures NonceStored(txs + [tx], nonce) <==> NonceStored(txs, nonce) || tx.nonce == nonce
  {
    assert (txs + [tx])[|txs|] == tx;
    if i :| 0 <= i < |txs| && txs[i].nonce == nonce {
      assert (txs + [tx])[i] == txs[i];
    }
  }

  /** A token of 500, unused. */
  const FRESH: seq<Op> := [CreditOp(1, 500), ProvisionOp(1, 500, LIMITS, 0)]

  lemma {:induction false} FreshState()
    ensures LegalRun(EMPTY_WORLD, FRESH[0..])
    ensures var w := Run(EMPTY_WORLD, FRESH[0..]);
            && At(w, 0, {}, {}, None) && w.txs == []
            && w == Step(Step(EMPTY_WORLD, FRESH[0]), FRESH[1])
            && Row(w.bank, 1) == Balance(0, 500)
  {
    var w1 := Step(EMPTY_WORLD, FRESH[0]);
    assert Row(w1.bank, 1) == Balance(500, 0);
    hide LegalRun, Run, Row, Provision;
    var w2 := Step(w1, FRESH[1]);
    Provisions(w1.bank, 500);
    Ends(w2, FRESH);
    Unroll(w1, FRESH, 1);
    Unroll(EMPTY_WORLD, FRESH, 0);
  }

  /** A step that syncs one element that is accepted. */
  lemma {:induction false} SyncsOne(w: World, tx: RawTx)
    requires Acceptable(w, tx, DIR, 0) && 0 <= w.bank.tokens[tx.token].used + tx.amount
    ensures Legal(w, SyncOp([tx], DIR, [0])) && Step(w, SyncOp([tx], DIR, [0])) == Book(w, tx)
  {
    hide Process, Acceptable, Book;
    AcceptedIff(w, tx, DIR, 0);
    SingleBatch(w, tx, DIR, 0);
    assert [tx][..0] == [] && [0 as Instant][..0] == [];
    assert LegalBatch(w, [], DIR, []) && Batch(w, [], DIR, []).world == w;
  }

  lemma {:induction false} FirstAcceptable(w: World)
    requires At(w, 0, {}, {}, None)
    ensures Acceptable(w, Element(1, 400, 1), DIR, 0)
  {
    hide Process;
    Answers(w, 0, {}, {}, None, 1, 400, 1);
    AcceptedIff(w, Element(1, 400, 1), DIR, 0);
  }

  /** The same with 400 of it used. */
  const TIGHT: seq<Op> :=
    [CreditOp(1, 500), ProvisionOp(1, 500, LIMITS, 0), SyncOp([Element(1, 400, 1)], DIR, [0])]

  lemma {:induction false} TightState()
    ensures LegalRun(EMPTY_WORLD, TIGHT[0..])
    ensures At(Run(EMPTY_WORLD, TIGHT[0..]), 400, {1}, {1}, Some(1))
  {
    hide LegalRun, Run, At, Acceptable, Book, Batch, Row;
    FreshState();
    var w1 := Step(EMPTY_WORLD, TIGHT[0]);
    var w2 := Step(w1, TIGHT[1]);
    FirstAcceptable(w2);
    FreshUsed(w2);
    SyncsOne(w2, Element(1, 400, 1));
    Books(w2, 0, {}, {}, None, 1, 400, 1);
    var w3 := Step(w2, TIGHT[2]);
    assert {} + {1} == {1};
    Ends(w3, TIGHT);
    Unroll(w2, TIGHT, 2);
    Unroll(w1, TIGHT, 1);
    Unroll(EMPTY_WORLD, TIGHT, 0);
  }

  lemma {:induction false} FreshUsed(w: World)
    requires At(w, 0, {}, {}, None)
    ensures |w.bank.tokens| == 1 && w.bank.tokens[0].used == 0
  {
  }

  /** Nothing in sync rejects a negative amount, and such an element lowers the usage: an
      element first refused for want of limit is accepted the second time round. */
  lemma {:induction false} NegativeAmountBreaksIdempotence()
    ensures LegalRun(EMPTY_WORLD, TIGHT[0..])
    ensures var batch := [Element(2, 200, 3), Element(3, -100, 2)];
            var first := Batch(Run(EMPTY_WORLD, TIGHT[0..]), batch, DIR, [0, 0]);
            && first.verdicts == [Rejected(InsufficientTokenLimit), Accepted]
            && Batch(first.world, batch, DIR, [0, 0]).verdicts == [Accepted, Duplicate]
  {
    hide LegalRun, Run, At, Process, Book, Batch;
    TightState();
    var large, negative := Element(2, 200, 3), Element(3, -100, 2);
    var w := Run(EMPTY_WORLD, TIGHT[0..]);
    Answers(w, 400, {1}, {1}, Some(1), 2, 200, 3);
    Answers(w, 400, {1}, {1}, Some(1), 3, -100, 2);
    PairBatch(w, large, negative, DIR, 0);
    Books(w, 400, {1}, {1}, Some(1), 3, -100, 2);
    var w1 := Book(w, negative);
    assert {1} + {3} == {1, 3};
    Answers(w1, 300, {1, 3}, {1, 3}, Some(2), 2, 200, 3);
    Books(w1, 300, {1, 3}, {1, 3}, Some(2), 2, 200, 3);
    var w2 := Book(w1, large);
    assert {1, 3} + {2} == {1, 2, 3};
    Duplicates(w2, 500, {1, 2, 3}, {1, 2, 3}, Some(3), 3, -100, 2);
    PairBatch(w1, large, negative, DIR, 0);
  }

  const UNREADABLE := Element(3, 100, 3).(payer := None)

  lemma {:induction false} UnreadableAnswers(w: World, used: int, ids: set<TxId>, nonces: set<Nonce>,
          last: Option<int>)
    requires At(w, used, ids, nonces, last) && 3 !in ids
    ensures Process(w, UNREADABLE, DIR, 0) ==
            (w, if 100 > 500 - used then Some(Rejected(InsufficientTokenLimit)) else None)
  {
  }

  lemma {:induction false} ThirdElement(w: World, first: RawTx, second: RawTx, third: RawTx, dir: Directory,
          now: Instant)
    ensures var before := Batch(w, [first, second], dir, [now, now]);
            var (after, v) := Process(before.world, third, dir, now);
            Batch(w, [first, second, third], dir, [now, now, now]) ==
              if before.raised then before
              else if v.None? then BatchRun(RolledBack(w, after), before.verdicts, true)
              else BatchRun(after, before.verdicts + [v.value], false)
  {
    hide Process, Batch;
    assert [first, second, third][..2] == [first, second] && [now, now, now][..2] == [now, now];
    BatchStep(w, [first, second, third], dir, [now, now, now]);
  }

  lemma {:induction false} RollsBack(w: World, reached: World)
    requires At(w, 0, {}, {}, None) && At(reached, 400, {1}, {1}, Some(1))
    ensures At(RolledBack(w, reached), 0, {}, {1}, Some(1))
  {
  }

  /** A batch that raises is not idempotent either, all amounts being positive: sent again
      as it is, it may go through, having lost the element it first accepted and accepting
      the one it first refused. */
  lemma {:induction false} RaisedBatchIsNotIdempotent()
    ensures LegalRun(EMPTY_WORLD, FRESH[0..])
    ensures var batch, times := [Element(1, 400, 1), Element(2, 450, 2), UNREADABLE], [0, 0, 0];
            var first := Batch(Run(EMPTY_WORLD, FRESH[0..]), batch, DIR, times);
            var second := Batch(first.world, batch, DIR, times);
            && first.raised && first.verdicts == [Accepted, Rejected(InsufficientTokenLimit)]
            && !second.raised
            && second.verdicts == [Rejected(ReplayDetected), Accepted, Rejected(InsufficientTokenLimit)]
  {
    hide LegalRun, Run, At, Process, Book, Batch, RolledBack, Row;
    FreshState();
    var one, two := Element(1, 400, 1), Element(2, 450, 2);
    var w := Run(EMPTY_WORLD, FRESH[0..]);
    Answers(w, 0, {}, {}, None, 1, 400, 1);
    Books(w, 0, {}, {}, None, 1, 400, 1);
    assert {} + {1} == {1};
    var w1 := Book(w, one);
    Answers(w1, 400, {1}, {1}, Some(1), 2, 450, 2);
    UnreadableAnswers(w1, 400, {1}, {1}, Some(1));
    PairBatch(w, one, two, DIR, 0);
    ThirdElement(w, one, two, UNREADABLE, DIR, 0);
    var w' := RolledBack(w, w1);
    RollsBack(w, w1);
    Replays(w', 0, {}, {1}, Some(1), 1, 400, 1);
    Answers(w', 0, {}, {1}, Some(1), 2, 450, 2);
    Books(w', 0, {}, {1}, Some(1), 2, 450, 2);
    assert {} + {2} == {2};
    UnreadableAnswers(Book(w', two), 450, {2}, {1} + {2}, Some(2));
    PairBatch(w', one, two, DIR, 0);
    ThirdElement(w', one, two, UNREADABLE, DIR, 0);
  }

  // ------------------------------------------------- where a payout is not covered

  const PAY := P.Single(1, P.Settler(true))

  lemma {:induction false} JointSyncsOne(j: C.Joint, tx: RawTx)
    requires Acceptable(j.world, tx, DIR, 0) && 0 <= j.world.bank.tokens[tx.token].used + tx.amount
    ensures C.Careful(j, C.Money(SyncOp([tx], DIR, [0])))
    ensures var j' := C.Moved(j, C.Money(SyncOp([tx], DIR, [0])));
            && j'.world == Book(j.world, tx)
            && j'.books == P.Take(j.books, P.Sync(tx.txId, tx.payer.value, tx.payee.value))
  {
    hide Batch, LegalBatch, P.Take;
    SyncsOne(j.world, tx);
    var stored := Stored(tx);
    assert Book(j.world, tx).txs == j.world.txs + [stored];
    assert (j.world.txs + [stored])[|j.world.txs|..] == [stored];
    assert [stored][..0] == [] && C.Entered(j.books, []) == j.books;
  }

  /** Steps that store nothing leave settlement alone. */
  lemma {:induction false} JointQuiet(j: C.Joint, op: Op)
    requires Careful(j.world, op) && Step(j.world, op).txs == j.world.txs
    ensures C.Moved(j, C.Money(op)) == C.Joint(Step(j.world, op), j.books)
  {
    hide Step;
    assert j.world.txs[|j.world.txs|..] == [] && C.Entered(j.books, []) == j.books;
  }

  lemma {:induction false} PaysFirst(j: C.Joint)
    requires j.books == P.Books(map[1 := P.Tx(1, 2, Verified, None)], [], [], {})
    ensures C.Careful(j, C.Settling(PAY))
    ensures var j' := C.Moved(j, C.Settling(PAY));
            j'.world == j.world && j'.books.made == [1]
  {
    P.FirstAttempt(j.books, 1, true);
  }

  /** 400 are spent, synced and paid out, and taken back by a negative element. */
  const UNCOVERED: seq<C.Move> :=
    [C.Money(CreditOp(1, 500)), C.Money(ProvisionOp(1, 500, LIMITS, 0)),
     C.Money(SyncOp([Element(1, 400, 1)], DIR, [0])), C.Settling(PAY),
     C.Money(SyncOp([Element(2, -400, 2)], DIR, [0])), C.Money(RevokeOp(0))]

  /** From a fresh token to 400 paid out of it. */
  lemma {:induction false} PaidJoint(j: C.Joint)
    requires At(j.world, 0, {}, {}, None) && j.world.txs == [] && j.books == P.EMPTY_BOOKS
    ensures C.Careful(j, UNCOVERED[2])
    ensures var j' := C.Moved(j, UNCOVERED[2]);
            && C.Careful(j', UNCOVERED[3])
            && var j'' := C.Moved(j', UNCOVERED[3]);
               && At(j''.world, 400, {1}, {1}, Some(1)) && j''.books.made == [1]
               && j''.world.bank.balances == j.world.bank.balances
               && j''.world.txs == [Stored(Element(1, 400, 1))]
  {
    FirstAcceptable(j.world);
    Books(j.world, 0, {}, {}, None, 1, 400, 1);
    assert {} + {1} == {1};
    JointSyncsOne(j, Element(1, 400, 1));
    hide At, Acceptable, C.Careful, C.Moved;
    PaysFirst(C.Moved(j, UNCOVERED[2]));
  }

  lemma {:induction false} BackAcceptable(w: World)
    requires At(w, 400, {1}, {1}, Some(1))
    ensures Acceptable(w, Element(2, -400, 2), DIR, 0) && w.bank.tokens[0].used == 400
  {
    hide Process;
    Answers(w, 400, {1}, {1}, Some(1), 2, -400, 2);
    AcceptedIff(w, Element(2, -400, 2), DIR, 0);
  }

  /** And on to the refund of all 500 of it. */
  lemma {:induction false} RevokedJoint(j: C.Joint)
    requires At(j.world, 400, {1}, {1}, Some(1)) && Row(j.world.bank, 1) == Balance(0, 500)
    requires j.world.txs == [Stored(Element(1, 400, 1))]
    ensures C.Careful(j, UNCOVERED[4])
    ensures var j' := C.Moved(j, UNCOVERED[4]);
            && C.Careful(j', UNCOVERED[5])
            && var j'' := C.Moved(j', UNCOVERED[5]);
               && j''.books.made == j.books.made
               && j''.world.txs == [Stored(Element(1, 400, 1)), Stored(Element(2, -400, 2))]
               && |j''.world.bank.tokens| == 1 && j''.world.bank.tokens[0].user == 1
               && Row(j''.world.bank, 1).locked == 0
  {
    BackAcceptable(j.world);
    Books(j.world, 400, {1}, {1}, Some(1), 2, -400, 2);
    JointSyncsOne(j, Element(2, -400, 2));
    var w' := Book(j.world, Element(2, -400, 2));
    assert w'.bank.tokens == [Fresh(500, 0)] && Row(w'.bank, 1) == Row(j.world.bank, 1);
    hide At, Acceptable, Row, Revoke, C.Moved;
    Revokes(w'.bank);
    JointQuiet(C.Moved(j, UNCOVERED[4]), RevokeOp(0));
  }

  lemma {:induction false} PaidFourHundred(j: C.Joint)
    requires j.books.made == [1] && j.world.txs == [Stored(Element(1, 400, 1)), Stored(Element(2, -400, 2))]
    requires |j.world.bank.tokens| == 1 && j.world.bank.tokens[0].user == 1
    ensures C.PaidFor(j.books.made, j.world.txs, j.world.bank.tokens, 1) == 400
  {
    var txs := j.world.txs;
    assert txs[..1] == [Stored(Element(1, 400, 1))] && txs[..1][..0] == [];
    assert C.AmountFor(txs[..1], 1, 0) == 400;
    assert [1 as TxId][..0] == [] && C.PaidFrom([1], txs, 0) == 400;
    assert j.world.bank.tokens[..0] == [];
  }

  lemma {:induction false} SameRow(b: Bank, b': Bank)
    requires b'.balances == b.balances
    ensures Row(b', 1) == Row(b, 1)
  {
  }

  lemma {:induction false} FreshJoint()
    ensures C.Careful(C.EMPTY, UNCOVERED[0])
    ensures var j1 := C.Moved(C.EMPTY, UNCOVERED[0]);
            && C.Careful(j1, UNCOVERED[1])
            && var j2 := C.Moved(j1, UNCOVERED[1]);
               && At(j2.world, 0, {}, {}, None) && j2.world.txs == [] && j2.books == P.EMPTY_BOOKS
               && Row(j2.world.bank, 1) == Balance(0, 500)
  {
    FreshState();
    var w1 := Step(EMPTY_WORLD, FRESH[0]);
    JointQuiet(C.EMPTY, FRESH[0]);
    hide C.Moved, At, Row, Run, LegalRun;
    JointQuiet(C.Joint(w1, P.EMPTY_BOOKS), FRESH[1]);
  }

  /** The revoked token is refunded in full although 400 of it were paid out. */
  lemma {:induction false} NegativeUncoversPayout()
    ensures C.CarefulRun(C.EMPTY, UNCOVERED[0..])
    ensures var j := C.Run(C.EMPTY, UNCOVERED[0..]);
            && C.PaidFor(j.books.made, j.world.txs, j.world.bank.tokens, 1) == 400
            && Row(j.world.bank, 1).locked == 0
  {
    hide C.Moved, C.Careful, C.CarefulRun, C.Run, C.PaidFor, At, Row, Legal, LegalRun, Run, Step, P.Take;
    FreshJoint();
    var j1 := C.Moved(C.EMPTY, UNCOVERED[0]);
    var j2 := C.Moved(j1, UNCOVERED[1]);
    PaidJoint(j2);
    var j3 := C.Moved(j2, UNCOVERED[2]);
    var j4 := C.Moved(j3, UNCOVERED[3]);
    SameRow(j2.world.bank, j4.world.bank);
    RevokedJoint(j4);
    var j5 := C.Moved(j4, UNCOVERED[4]);
    var j6 := C.Moved(j5, UNCOVERED[5]);
    PaidFourHundred(j6);
    JointEnds(j6, UNCOVERED);
    JointUnroll(j5, UNCOVERED, 5);
    JointUnroll(j4, UNCOVERED, 4);
    JointUnroll(j3, UNCOVERED, 3);
    JointUnroll(j2, UNCOVERED, 2);
    JointUnroll(j1, UNCOVERED, 1);
    JointUnroll(C.EMPTY, UNCOVERED, 0);
  }

  /** Two tokens, one revoked and unspent, the other fully spent and paid out. */
  const REFUNDED: seq<C.Move> :=
    [C.Money(CreditOp(1, 1000)), C.Money(ProvisionOp(1, 500, LIMITS, 0)), C.Money(ProvisionOp(1, 300, LIMITS, 0)),
     C.Money(RevokeOp(0)), C.Money(SyncOp([SPENT_ALL], DIR, [0])), C.Settling(PAY)]

  const SPENT_ALL := RawTx(1, 1, Some(1), Some(2), 300, 1, 1, Some(1), {})

  lemma {:induction false} RevokedInJoint()
    ensures C.Careful(C.EMPTY, REFUNDED[0])
    ensures var j1 := C.Moved(C.EMPTY, REFUNDED[0]);
            && C.Careful(j1, REFUNDED[1])
            && var j2 := C.Moved(j1, REFUNDED[1]);
               && C.Careful(j2, REFUNDED[2])
               && var j3 := C.Moved(j2, REFUNDED[2]);
                  && C.Careful(j3, REFUNDED[3])
                  && var j4 := C.Moved(j3, REFUNDED[3]);
                     Revoked(j4.world) && j4.books == P.EMPTY_BOOKS
  {
    RevokedSteps();
    var w1 := Step(EMPTY_WORLD, REVOKED[0]);
    var w2 := Step(w1, REVOKED[1]);
    var w3 := Step(w2, REVOKED[2]);
    hide Step, C.Moved;
    JointQuiet(C.EMPTY, REVOKED[0]);
    JointQuiet(C.Joint(w1, P.EMPTY_BOOKS), REVOKED[1]);
    JointQuiet(C.Joint(w2, P.EMPTY_BOOKS), REVOKED[2]);
    JointQuiet(C.Joint(w3, P.EMPTY_BOOKS), REVOKED[3]);
  }

  /** The second token is spent, synced and paid out. */
  ghost predicate SpentAll(j: C.Joint) {
    && j.world.bank.tokens == [Fresh(500, 0).(status := Status.Revoked), Fresh(300, 300)]
    && Row(j.world.bank, 1) == Balance(700, 300)
    && j.world.txs == [Stored(SPENT_ALL)] && j.books.made == [1]
  }

  lemma {:induction false} SpendsAll(j: C.Joint)
    requires Revoked(j.world) && j.books == P.EMPTY_BOOKS
    ensures C.Careful(j, REFUNDED[4])
    ensures var j' := C.Moved(j, REFUNDED[4]);
            C.Careful(j', REFUNDED[5]) && SpentAll(C.Moved(j', REFUNDED[5]))
  {
    var w' := Book(j.world, SPENT_ALL);
    assert Row(w'.bank, 1) == Row(j.world.bank, 1);
    assert w'.bank.tokens == [Fresh(500, 0).(status := Status.Revoked), Fresh(300, 300)];
    assert w'.txs == [Stored(SPENT_ALL)];
    JointSyncsOne(j, SPENT_ALL);
    hide Book, Row, C.Careful, C.Moved;
    PaysFirst(C.Moved(j, REFUNDED[4]));
  }

  lemma {:induction false} PaidThreeHundred(j: C.Joint)
    requires SpentAll(j)
    ensures C.PaidFor(j.books.made, j.world.txs, j.world.bank.tokens, 1) == 300
    ensures Row(RefundSpecific(j.world.bank, 0).bank, 1).locked == 0
  {
    var txs := j.world.txs;
    assert txs[..0] == [] && [1 as TxId][..0] == [];
    assert C.AmountFor(txs, 1, 0) == 0 && C.AmountFor(txs, 1, 1) == 300;
    assert C.PaidFrom([1], txs, 0) == 0 && C.PaidFrom([1], txs, 1) == 300;
    var tokens := j.world.bank.tokens;
    assert tokens[..1][..0] == [] && C.PaidFor([1], txs, tokens[..1], 1) == 0;
  }

  /** Nothing is negative, and yet: refunding the revoked token by hand a second time takes
      what the payout out of the other one was covered by. */
  lemma {:induction false} RefundUncoversPayout()
    ensures C.CarefulRun(C.EMPTY, REFUNDED[0..])
    ensures var j := C.Run(C.EMPTY, REFUNDED[0..]);
            && C.PaidFor(j.books.made, j.world.txs, j.world.bank.tokens, 1) == 300
            && Row(RefundSpecific(j.world.bank, 0).bank, 1).locked == 0
  {
    hide C.Moved, C.Careful, C.CarefulRun, C.Run, C.PaidFor, Revoked, SpentAll, Row, RefundSpecific;
    RevokedInJoint();
    var j1 := C.Moved(C.EMPTY, REFUNDED[0]);
    var j2 := C.Moved(j1, REFUNDED[1]);
    var j3 := C.Moved(j2, REFUNDED[2]);
    var j4 := C.Moved(j3, REFUNDED[3]);
    SpendsAll(j4);
    var j5 := C.Moved(j4, REFUNDED[4]);
    var j6 := C.Moved(j5, REFUNDED[5]);
    PaidThreeHundred(j6);
    JointEnds(j6, REFUNDED);
    JointUnroll(j5, REFUNDED, 5);
    JointUnroll(j4, REFUNDED, 4);
    JointUnroll(j3, REFUNDED, 3);
    JointUnroll(j2, REFUNDED, 2);
    JointUnroll(j1, REFUNDED, 1);
    JointUnroll(C.EMPTY, REFUNDED, 0);
  }
}
