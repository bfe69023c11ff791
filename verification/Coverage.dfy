/** Sync, tokens, ledger and settlement as one machine: whether what merchants are paid is
    covered by what is locked. */
module Coverage {
  import opened Types
  import opened Sums
  import opened Coupling
  import opened Sync
  import M = System
  import P = Settlement

  /** The transactions table is shared: `world` has what sync wrote, `books` the rest. */
  datatype Joint = Joint(world: World, books: P.Books)

  const EMPTY := Joint(EMPTY_WORLD, P.EMPTY_BOOKS)

  datatype Move = Money(op: M.Op) | Settling(step: P.Step)

  /** Transactions stored by sync start out verified. */
  ghost function Entered(b: P.Books, txs: seq<Transaction>): P.Books {
    if txs == [] then b
    else
      var last := txs[|txs| - 1];
      P.Take(Entered(b, txs[..|txs| - 1]), P.Sync(last.txId, last.payer, last.payee))
  }

  ghost predicate Careful(j: Joint, move: Move) {
    match move
    case Money(op) => M.Careful(j.world, op)
    case Settling(step) => P.Legal(j.books, step) && !step.Sync?
  }

  ghost function Moved(j: Joint, move: Move): Joint
    requires Careful(j, move)
  {
    match move
    case Money(op) =>
      M.StoredStays(j.world, op);
      var after := M.Step(j.world, op);
      Joint(after, Entered(j.books, after.txs[|j.world.txs|..]))
    case Settling(step) => j.(books := P.Take(j.books, step))
  }

  ghost predicate CarefulRun(j: Joint, moves: seq<Move>)
    decreases |moves|
  {
    moves == [] || (Careful(j, moves[0]) && CarefulRun(Moved(j, moves[0]), moves[1..]))
  }

  ghost function Run(j: Joint, moves: seq<Move>): Joint
    requires CarefulRun(j, moves)
    decreases |moves|
  {
    if moves == [] then j else Run(Moved(j, moves[0]), moves[1..])
  }

  // ----------------------------------------------------------------- invariant

  /** Settlement only knows stored transactions, and transfers are only sent for those. */
  ghost predicate Linked(j: Joint) {
    && (forall t | t in j.books.txs :: Exists(j.world.txs, t))
    && (forall t | t in j.books.made || t in j.books.pending :: t in j.books.txs)
  }

  ghost predicate Sound(j: Joint) {
    Backed(j.world.bank) && M.Traced(j.world) && P.PaidOnce(j.books) && Linked(j)
  }

  /** Settlement adds no transaction, and sends no transfer for one it does not know. */
  ghost predicate OnlyKnown(b: P.Books, b': P.Books) {
    && b'.txs.Keys == b.txs.Keys
    && (forall t | t in b'.made :: t in b.made || t in b.pending || t in b.txs)
    && (forall t | t in b'.pending :: t in b.pending || t in b.txs)
  }

  lemma {:induction false} ProcessAllOnlyKnown(b: P.Books, ids: seq<P.TxId>, ss: seq<P.Surroundings>)
    requires |ids| == |ss|
    ensures OnlyKnown(b, P.ProcessAll(b, ids, ss).0)
  {
    if ids != [] {
      ProcessAllOnlyKnown(b, ids[..|ids| - 1], ss[..|ids| - 1]);
    }
  }

  lemma {:induction false} TakeOnlyKnown(b: P.Books, step: P.Step)
    requires P.Legal(b, step) && !step.Sync?
    ensures OnlyKnown(b, P.Take(b, step))
  {
    match step
    case Batch(ids, ss) => ProcessAllOnlyKnown(b, ids, ss);
    case Retry(picks, ss) => ProcessAllOnlyKnown(b, P.TxIds(b.rows, picks), ss);
    case _ =>
  }

  lemma {:induction false} EnteredKeeps(b: P.Books, txs: seq<Transaction>)
    requires P.PaidOnce(b)
    ensures P.PaidOnce(Entered(b, txs))
    ensures Entered(b, txs).made == b.made && Entered(b, txs).pending == b.pending
    ensures forall t | t in Entered(b, txs).txs :: t in b.txs || Exists(txs, t)
    ensures forall t | t in b.txs :: t in Entered(b, txs).txs
  {
    if txs != [] {
      var n := |txs| - 1;
      EnteredKeeps(b, txs[..n]);
      P.SyncKeeps(Entered(b, txs[..n]), txs[n].txId, txs[n].payer, txs[n].payee);
      forall t | t in Entered(b, txs).txs ensures t in b.txs || Exists(txs, t) {
        if t == txs[n].txId {
          assert Exists(txs, t);
        } else if t !in b.txs {
          ExistsGrows(txs[..n], txs, t);
        }
      }
    }
  }

  lemma {:induction false} MoneyKeeps(j: Joint, op: M.Op)
    requires Sound(j) && Careful(j, Money(op))
    ensures Sound(Moved(j, Money(op)))
  {
    hide Backed, M.Traced, P.PaidOnce, M.Step;
    M.StepKeepsBacked(j.world, op);
    M.StepKeepsTraced(j.world, op);
    M.StoredStays(j.world, op);
    var after := M.Step(j.world, op);
    var added := after.txs[|j.world.txs|..];
    EnteredKeeps(j.books, added);
    forall t | t in Entered(j.books, added).txs ensures Exists(after.txs, t) {
      if t in j.books.txs {
        ExistsGrows(j.world.txs, after.txs, t);
      } else {
        var i :| 0 <= i < |added| && added[i].txId == t;
        assert after.txs[|j.world.txs| + i] == added[i];
      }
    }
  }

  lemma {:induction false} MoveKeeps(j: Joint, move: Move)
    requires Sound(j) && Careful(j, move)
    ensures Sound(Moved(j, move))
  {
    match move
    case Money(op) => MoneyKeeps(j, op);
    case Settling(step) =>
      hide Backed, M.Traced, P.PaidOnce, P.Take;
      P.TakeKeeps(j.books, step);
      TakeOnlyKnown(j.books, step);
  }

  lemma {:induction false} RunKeeps(j: Joint, moves: seq<Move>)
    requires Sound(j) && CarefulRun(j, moves)
    ensures Sound(Run(j, moves))
    decreases |moves|
  {
    if moves != [] {
      hide Sound;
      MoveKeeps(j, moves[0]);
      RunKeeps(Moved(j, moves[0]), moves[1..]);
    }
  }

  // ------------------------------------------------------------------- payouts

  /** What the transfer made for reference `id` takes out of token `t`. */
  function AmountFor(txs: seq<Transaction>, id: TxId, t: TokenId): int {
    if txs == [] then 0
    else
      var last := txs[|txs| - 1];
      AmountFor(txs[..|txs| - 1], id, t) + if last.txId == id && last.token == t then last.amount else 0
  }

  /** SUM over the transfers made. */
  function PaidFrom(made: seq<TxId>, txs: seq<Transaction>, t: TokenId): int {
    if made == [] then 0
    else PaidFrom(made[..|made| - 1], txs, t) + AmountFor(txs, made[|made| - 1], t)
  }

  /** The same over the tokens of one user. */
  function PaidFor(made: seq<TxId>, txs: seq<Transaction>, tokens: seq<Token>, u: UserId): int {
    if tokens == [] then 0
    else
      var n := |tokens| - 1;
      PaidFor(made, txs, tokens[..n], u) + if tokens[n].user == u then PaidFrom(made, txs, n) else 0
  }

  ghost predicate Distinct(made: seq<TxId>) {
    forall i, j | 0 <= i < j < |made| :: made[i] != made[j]
  }

  /** One more stored transaction adds its amount at most once, as no transfer is made twice. */
  lemma {:induction false} OneMoreStored(made: seq<TxId>, txs: seq<Transaction>, t: TokenId)
    requires Distinct(made) && txs != []
    ensures var last := txs[|txs| - 1];
            PaidFrom(made, txs, t) == PaidFrom(made, txs[..|txs| - 1], t)
              + if last.txId in made && last.token == t then last.amount else 0
  {
    if made != [] {
      var n := |made| - 1;
      OneMoreStored(made[..n], txs, t);
      assert made == made[..n] + [made[n]];
    }
  }

  lemma {:induction false} NothingStored(made: seq<TxId>, t: TokenId)
    ensures PaidFrom(made, [], t) == 0
  {
    if made != [] {
      NothingStored(made[..|made| - 1], t);
    }
  }

  lemma {:induction false} PaidWithinSynced(made: seq<TxId>, txs: seq<Transaction>, t: TokenId)
    requires Distinct(made) && forall i | 0 <= i < |txs| :: 0 <= txs[i].amount
    ensures 0 <= PaidFrom(made, txs, t) <= M.Synced(txs, t)
  {
    if txs == [] {
      NothingStored(made, t);
    } else {
      OneMoreStored(made, txs, t);
      PaidWithinSynced(made, txs[..|txs| - 1], t);
    }
  }

  lemma {:induction false} SpentNonNegative(spends: seq<Spend>, t: TokenId)
    requires forall i | 0 <= i < |spends| :: 0 <= spends[i].amount
    ensures 0 <= M.Spent(spends, t)
  {
    if spends != [] {
      SpentNonNegative(spends[..|spends| - 1], t);
    }
  }

  lemma {:induction false} PaidWithinHeld(made: seq<TxId>, txs: seq<Transaction>, tokens: seq<Token>, u: UserId)
    requires forall t: TokenId | t < |tokens| :: PaidFrom(made, txs, t) <= tokens[t].Held()
    ensures PaidFor(made, txs, tokens, u) <= HeldBy(tokens, u)
  {
    if tokens != [] {
      var n := |tokens| - 1;
      assert forall t: TokenId | t < n :: tokens[..n][t] == tokens[t];
      PaidWithinHeld(made, txs, tokens[..n], u);
    }
  }

  lemma {:induction false} PaidWithinUsed(j: Joint, t: TokenId)
    requires Sound(j) && t < |j.world.bank.tokens|
    requires forall i | 0 <= i < |j.world.txs| :: 0 <= j.world.txs[i].amount
    requires forall i | 0 <= i < |j.world.spends| :: 0 <= j.world.spends[i].amount
    ensures PaidFrom(j.books.made, j.world.txs, t) <= j.world.bank.tokens[t].used <= j.world.bank.tokens[t].Held()
  {
    PaidWithinSynced(j.books.made, j.world.txs, t);
    SpentNonNegative(j.world.spends, t);
  }

  lemma {:induction false} CoveredWhenSound(j: Joint, u: UserId)
    requires Sound(j)
    requires forall i | 0 <= i < |j.world.txs| :: 0 <= j.world.txs[i].amount
    requires forall i | 0 <= i < |j.world.spends| :: 0 <= j.world.spends[i].amount
    ensures PaidFor(j.books.made, j.world.txs, j.world.bank.tokens, u) <= Row(j.world.bank, u).locked
  {
    assert Backs(j.world.bank, u);
    hide Sound, PaidFrom, Row;
    forall t: TokenId | t < |j.world.bank.tokens|
      ensures PaidFrom(j.books.made, j.world.txs, t) <= j.world.bank.tokens[t].Held()
    {
      PaidWithinUsed(j, t);
    }
    PaidWithinHeld(j.books.made, j.world.txs, j.world.bank.tokens, u);
  }

  /** In every careful run of the whole system, with lapsing keys, refund-free bulk expiries,
      settlements, webhooks and copied statuses in any order: as long as nothing negative was
      accepted or spent, transfers have only been made for stored transactions, what they
      took out of a token is within its usage, and what they took out of a user's tokens is
      within what the user has locked. */
  lemma {:induction false} PayoutsAreCovered(moves: seq<Move>, t: TokenId, u: UserId)
    requires CarefulRun(EMPTY, moves)
    requires var w := Run(EMPTY, moves).world;
             && (forall i | 0 <= i < |w.txs| :: 0 <= w.txs[i].amount)
             && (forall i | 0 <= i < |w.spends| :: 0 <= w.spends[i].amount)
    ensures var j := Run(EMPTY, moves);
            && (forall id | id in j.books.made :: Exists(j.world.txs, id))
            && (t < |j.world.bank.tokens| ==>
                  PaidFrom(j.books.made, j.world.txs, t) <= j.world.bank.tokens[t].used)
            && PaidFor(j.books.made, j.world.txs, j.world.bank.tokens, u) <= Row(j.world.bank, u).locked
  {
    RunKeeps(EMPTY, moves);
    CoveredWhenSound(Run(EMPTY, moves), u);
    if t < |Run(EMPTY, moves).world.bank.tokens| {
      PaidWithinUsed(Run(EMPTY, moves), t);
    }
  }
}
