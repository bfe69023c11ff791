/** Settling verified transactions (app/services/settlement_service.py), its workers
    (app/workers/settlement_worker.py) and the repositories they write through. */
module Settlement {
  import opened Types

  type TxId = nat

  /** The reference sent with a transfer is the provider's idempotency key: it makes one
      transfer for each reference and answers a repeat with that one.  So a transfer is
      known by the reference it was made for.  A webhook may come without an identifier. */
  datatype TransferId = TransferFor(reference: TxId) | NoId

  datatype Tx = Tx(payer: UserId, payee: UserId, status: TxStatus, reference: Option<TransferId>)

  datatype RowStatus = Processing | Completed | Failed

  datatype Row = Row(tx: TxId, status: RowStatus, transfer: Option<TransferId>, attempts: nat)

  /** transactions and settlements, and at the provider the transfers it has executed and
      those it has only accepted. */
  datatype Books = Books(txs: map<TxId, Tx>, rows: seq<Row>, made: seq<TxId>, pending: set<TxId>)

  datatype Lookup = NoRow | OneRow(index: nat) | ManyRows

  /** scalar_one_or_none: more than one match raises. */
  function Find(rows: seq<Row>, tx: TxId): (found: Lookup)
    ensures found.OneRow? ==> found.index < |rows| && rows[found.index].tx == tx
    ensures found.OneRow? ==> forall i | 0 <= i < |rows| && rows[i].tx == tx :: i == found.index
    ensures found.NoRow? <==> forall i | 0 <= i < |rows| :: rows[i].tx != tx
    ensures found.ManyRows? <==> exists i, j :: 0 <= i < j < |rows| && rows[i].tx == rows[j].tx == tx
  {
    if rows == [] then NoRow
    else
      var n := |rows| - 1;
      var before := Find(rows[..n], tx);
      if rows[n].tx != tx then before
      else if before.NoRow? then OneRow(n)
      else ManyRows
  }

  datatype Failure =
    | TxNotFound | AlreadyProcessed | WrongStatus | MultipleRows | InProgress | UserNotFound | TransferFailed

  datatype Result = Paid(reference: Option<TransferId>, fromCache: bool) | Raised(failure: Failure)

  /** What becomes of a send.  An answer is a success also when the provider has accepted
      the transfer but not executed it (NEW, PENDING_BILLING); an answer can be lost. */
  datatype Answer = Answered(executed: bool) | Lost(executed: bool) | Declined

  /** What the surroundings answer during one call: the advisory lock, the users table,
      and the provider. */
  datatype Surroundings = Surroundings(lockFree: bool, users: set<UserId>, answer: Answer)

  /** The provider: a transfer it has made already it does not make again. */
  function Sent(b: Books, t: TxId, answer: Answer): Books {
    if answer.Declined? || t in b.made then b
    else if answer.executed then b.(made := b.made + [t])
    else b.(pending := b.pending + {t})
  }

  /** The provider executes what it had accepted. */
  function Executed(b: Books, t: TxId): Books {
    if t in b.made then b else b.(made := b.made + [t])
  }

  function SetTx(b: Books, t: TxId, status: TxStatus, reference: Option<TransferId>): Books
    requires t in b.txs
  {
    b.(txs := b.txs[t := b.txs[t].(status := status, reference := reference)])
  }

  /** A new row, and the transaction closed with it. */
  function Booked(b: Books, t: TxId, row: Row, status: TxStatus, reference: Option<TransferId>): Books
    requires t in b.txs
  {
    SetTx(b.(rows := b.rows + [row]), t, status, reference)
  }

  /** process_settlement from the new row on, as far as the session sees it: the outcome
      of the transfer stays behind even when it raises. */
  function Settle(b: Books, t: TxId, answer: Answer): (Books, Result)
    requires t in b.txs
  {
    var existing := Find(b.rows, t);
    var attempts := if existing.OneRow? then b.rows[existing.index].attempts + 1 else 1;
    var sent := Sent(b, t, answer);
    var id := Some(TransferFor(t));
    if answer.Answered? then (Booked(sent, t, Row(t, Completed, id, attempts), Settled, id), Paid(id, false))
    else
      (Booked(sent, t, Row(t, Failed, None, attempts), SettlementFailed, b.txs[t].reference), Raised(TransferFailed))
  }

  function Process(b: Books, t: TxId, s: Surroundings): (Books, Result) {
    if t !in b.txs then (b, Raised(TxNotFound))
    else if b.txs[t].status.Settled? then (b, Raised(AlreadyProcessed))
    else if !b.txs[t].status.Verified? then (b, Raised(WrongStatus))
    else
      var existing := Find(b.rows, t);
      if existing.ManyRows? then (b, Raised(MultipleRows))
      else if existing.OneRow? && b.rows[existing.index].status.Completed? then
        (b, Paid(b.rows[existing.index].transfer, true))
      else if !s.lockFree then (b, Raised(InProgress))
      else if b.txs[t].payee !in s.users || b.txs[t].payer !in s.users then (b, Raised(UserNotFound))
      else Settle(b, t, s.answer)
  }

  /** A rollback undoes what the session wrote, but not what the provider did. */
  function Undone(b: Books, after: Books): Books {
    b.(made := after.made, pending := after.pending)
  }

  /** One worker call for one transaction: what raises is rolled back. */
  function ProcessOne(b: Books, t: TxId, s: Surroundings): (Books, Result) {
    var (after, result) := Process(b, t, s);
    (if result.Raised? then Undone(b, after) else after, result)
  }

  /** The batch and retry workers swallow what raises and commit at the end. */
  function ProcessAll(b: Books, ids: seq<TxId>, ss: seq<Surroundings>): (Books, seq<Result>)
    requires |ids| == |ss|
  {
    if ids == [] then (b, [])
    else
      var n := |ids| - 1;
      var (before, results) := ProcessAll(b, ids[..n], ss[..n]);
      var (after, result) := Process(before, ids[n], ss[n]);
      (after, results + [result])
  }

  const MAX_ATTEMPTS := 3
  const RETRY_LIMIT := 50

  /** A result of get_pending_retry: failed rows with attempts left, oldest attempts first,
      which is to say in some order, and not more than the limit. */
  ghost predicate PendingRetry(b: Books, picks: seq<nat>) {
    && |picks| <= RETRY_LIMIT
    && (forall i | 0 <= i < |picks| ::
          picks[i] < |b.rows| && b.rows[picks[i]].status.Failed? && b.rows[picks[i]].attempts < MAX_ATTEMPTS)
    && (forall i, j | 0 <= i < j < |picks| :: picks[i] != picks[j])
  }

  function TxIds(rows: seq<Row>, picks: seq<nat>): seq<TxId>
    requires forall i | 0 <= i < |picks| :: picks[i] < |rows|
    ensures |TxIds(rows, picks)| == |picks|
    ensures forall i | 0 <= i < |picks| :: TxIds(rows, picks)[i] == rows[picks[i]].tx
  {
    seq(|picks|, i requires 0 <= i < |picks| => rows[picks[i]].tx)
  }

  /** The success webhook; a lookup that raises rolls it back. */
  function Confirm(b: Books, t: TxId, id: TransferId): Books {
    if t !in b.txs then b
    else
      var settled := SetTx(b, t, Settled, Some(id));
      match Find(b.rows, t)
      case ManyRows => b
      case NoRow => settled
      case OneRow(i) => settled.(rows := b.rows[i := b.rows[i].(status := Completed, transfer := Some(id))])
  }

  /** The failure webhook: the transfer identifiers stay. */
  function Deny(b: Books, t: TxId): Books {
    if t !in b.txs then b
    else
      var failed := SetTx(b, t, SettlementFailed, b.txs[t].reference);
      match Find(b.rows, t)
      case ManyRows => b
      case NoRow => failed
      case OneRow(i) => failed.(rows := b.rows[i := b.rows[i].(status := Failed)])
  }

  /** sync_transaction_status copies whatever status the provider reports.  Those are all in
      upper case, so none of them is one of the service's own. */
  function CopyStatus(b: Books, t: TxId, code: nat): Books {
    if t !in b.txs then b else SetTx(b, t, Reported(code), b.txs[t].reference)
  }

  datatype Step =
    | Sync(tx: TxId, payer: UserId, payee: UserId)
    | Single(tx: TxId, s: Surroundings)
    | Batch(ids: seq<TxId>, ss: seq<Surroundings>)
    | Retry(picks: seq<nat>, ss: seq<Surroundings>)
    | Execute(tx: TxId)
    | SuccessHook(tx: TxId, id: TransferId)
    | FailureHook(tx: TxId)
    | Copy(tx: TxId, code: nat)

  ghost predicate Legal(b: Books, step: Step) {
    match step
    case Batch(ids, ss) => |ids| == |ss|
    case Retry(picks, ss) => PendingRetry(b, picks) && |picks| == |ss|
    case Execute(t) => t in b.pending
    case _ => true
  }

  /** Committed states move by these. */
  ghost function Take(b: Books, step: Step): Books
    requires Legal(b, step)
  {
    match step
    case Sync(t, payer, payee) => if t in b.txs then b else b.(txs := b.txs[t := Tx(payer, payee, Verified, None)])
    case Single(t, s) => ProcessOne(b, t, s).0
    case Batch(ids, ss) => ProcessAll(b, ids, ss).0
    case Retry(picks, ss) => ProcessAll(b, TxIds(b.rows, picks), ss).0
    case Execute(t) => Executed(b, t)
    case SuccessHook(t, id) => Confirm(b, t, id)
    case FailureHook(t) => Deny(b, t)
    case Copy(t, code) => CopyStatus(b, t, code)
  }

  ghost predicate LegalRun(b: Books, steps: seq<Step>)
    decreases |steps|
  {
    steps == [] || (Legal(b, steps[0]) && LegalRun(Take(b, steps[0]), steps[1..]))
  }

  ghost function Run(b: Books, steps: seq<Step>): Books
    requires LegalRun(b, steps)
    decreases |steps|
  {
    if steps == [] then b else Run(Take(b, steps[0]), steps[1..])
  }

  /** Every step of the run is fine in the state it is taken in. */
  ghost predicate Throughout(b: Books, steps: seq<Step>, fine: (Books, Step) -> bool)
    requires LegalRun(b, steps)
    decreases |steps|
  {
    steps == [] || (fine(b, steps[0]) && Throughout(Take(b, steps[0]), steps[1..], fine))
  }

  /** A success webhook tells of the transfer that was made for this reference. */
  predicate Honest(b: Books, step: Step) {
    step.SuccessHook? ==> step.id == TransferFor(step.tx) && step.tx in b.made
  }

  const EMPTY_BOOKS := Books(map[], [], [], {})

  // ------------------------------------------------------ what can be seen of it

  /** Nothing about `t` keeps an attempt from reaching the transfer. */
  ghost predicate Open(b: Books, t: TxId, s: Surroundings) {
    && t in b.txs && b.txs[t].status == Verified
    && (forall i, j | 0 <= i < j < |b.rows| :: !(b.rows[i].tx == t && b.rows[j].tx == t))
    && (forall i | 0 <= i < |b.rows| && b.rows[i].tx == t :: b.rows[i].status != Completed)
    && s.lockFree && b.txs[t].payer in s.users && b.txs[t].payee in s.users
  }

  /** The row of an attempt, which counts the attempts. */
  ghost predicate Ends(b: Books, row: Row, t: TxId, answered: bool) {
    && row.tx == t
    && row.status == (if answered then Completed else Failed)
    && row.transfer == (if answered then Some(TransferFor(t)) else None)
    && (forall i | 0 <= i < |b.rows| && b.rows[i].tx == t :: row.attempts == b.rows[i].attempts + 1)
    && ((forall i | 0 <= i < |b.rows| :: b.rows[i].tx != t) ==> row.attempts == 1)
  }

  /** One row is new, for this transaction and counting its attempts; an answered attempt
      completes it and settles the transaction, with the transfer on both, and any other
      fails both, with no transfer on the row and the reference left as it was.  Nothing
      else in the two tables is different. */
  ghost predicate Concluded(b: Books, after: Books, t: TxId, answered: bool) {
    && |after.rows| == |b.rows| + 1
    && (forall i | 0 <= i < |b.rows| :: after.rows[i] == b.rows[i])
    && Ends(b, after.rows[|b.rows|], t, answered)
    && after.txs.Keys == b.txs.Keys && t in b.txs
    && (forall u | u in b.txs && u != t :: after.txs[u] == b.txs[u])
    && after.txs[t].payer == b.txs[t].payer && after.txs[t].payee == b.txs[t].payee
    && after.txs[t].status == (if answered then Settled else SettlementFailed)
    && after.txs[t].reference == (if answered then Some(TransferFor(t)) else b.txs[t].reference)
  }

  /** What the provider has then done. */
  ghost predicate Provided(b: Books, after: Books, t: TxId, answer: Answer) {
    if t in b.made || answer == Declined then after.made == b.made && after.pending == b.pending
    else if answer in {Answered(true), Lost(true)} then after.made == b.made + [t] && after.pending == b.pending
    else after.made == b.made && after.pending == b.pending + {t}
  }

  /** An attempt that reaches the transfer leaves its end in the session, also when it
      raises. */
  lemma {:induction false} AttemptConcludes(b: Books, t: TxId, s: Surroundings)
    requires Open(b, t, s)
    ensures var (after, result) := Process(b, t, s);
            && Concluded(b, after, t, s.answer.Answered?)
            && Provided(b, after, t, s.answer)
            && result == if s.answer.Answered? then Paid(Some(TransferFor(t)), false) else Raised(TransferFailed)
  {
  }

  /** Any other changes nothing, for the first of these reasons that applies. */
  lemma {:induction false} AttemptStops(b: Books, t: TxId, s: Surroundings)
    requires !Open(b, t, s)
    ensures var (after, result) := Process(b, t, s);
            && after == b
            && if t !in b.txs then result == Raised(TxNotFound)
               else if b.txs[t].status == Settled then result == Raised(AlreadyProcessed)
               else if b.txs[t].status != Verified then result == Raised(WrongStatus)
               else if exists i, j :: 0 <= i < j < |b.rows| && b.rows[i].tx == t && b.rows[j].tx == t then
                 result == Raised(MultipleRows)
               else if exists i :: 0 <= i < |b.rows| && b.rows[i].tx == t && b.rows[i].status == Completed then
                 forall i | 0 <= i < |b.rows| && b.rows[i].tx == t :: result == Paid(b.rows[i].transfer, true)
               else result == Raised(if s.lockFree then UserNotFound else InProgress)
  {
  }

  /** Of a single attempt that raises, only what the provider did remains. */
  lemma {:induction false} SingleConcludes(b: Books, t: TxId, s: Surroundings)
    requires Open(b, t, s)
    ensures var (after, _) := ProcessOne(b, t, s);
            && Provided(b, after, t, s.answer)
            && if s.answer.Answered? then Concluded(b, after, t, true)
               else after.txs == b.txs && after.rows == b.rows
  {
    AttemptConcludes(b, t, s);
  }

  /** What is said of one attempt still shows: its row, and the end of its transaction. */
  ghost predicate Shows(before: Books, after: Books, t: TxId, answered: bool) {
    && |before.rows| < |after.rows|
    && after.rows[|before.rows|].tx == t
    && after.rows[|before.rows|].status == (if answered then Completed else Failed)
    && after.rows[|before.rows|].transfer == (if answered then Some(TransferFor(t)) else None)
    && t in after.txs
    && after.txs[t].status == (if answered then Settled else SettlementFailed)
  }

  lemma {:induction false} AttemptLeavesOthers(b: Books, t: TxId, s: Surroundings, before: Books, u: TxId,
          answered: bool)
    requires Shows(before, b, u, answered)
    ensures Shows(before, Process(b, t, s).0, u, answered)
  {
    if Open(b, t, s) {
      AttemptConcludes(b, t, s);
    } else {
      AttemptStops(b, t, s);
    }
  }

  /** In a batch, whose exceptions are swallowed, the ends of all attempts are committed, the
      failed ones among them. */
  lemma {:induction false} BatchConcludes(b: Books, ids: seq<TxId>, ss: seq<Surroundings>, k: nat)
    requires k < |ids| == |ss|
    requires Open(ProcessAll(b, ids[..k], ss[..k]).0, ids[k], ss[k])
    ensures var before := ProcessAll(b, ids[..k], ss[..k]).0;
            Shows(before, ProcessAll(b, ids, ss).0, ids[k], ss[k].answer.Answered?)
    ensures |ProcessAll(b, ids, ss).1| == |ids|
    ensures ProcessAll(b, ids, ss).1[k] ==
            if ss[k].answer.Answered? then Paid(Some(TransferFor(ids[k])), false) else Raised(TransferFailed)
  {
    hide Process, Open, Shows;
    var n := |ids| - 1;
    var (before, results) := ProcessAll(b, ids[..n], ss[..n]);
    OneResultEach(b, ids[..n], ss[..n]);
    if k == n {
      AttemptConcludes(before, ids[n], ss[n]);
      ConcludedShows(before, Process(before, ids[n], ss[n]).0, ids[n], ss[n].answer.Answered?);
    } else {
      assert ids[..n][..k] == ids[..k] && ss[..n][..k] == ss[..k];
      BatchConcludes(b, ids[..n], ss[..n], k);
      var start := ProcessAll(b, ids[..k], ss[..k]).0;
      AttemptLeavesOthers(before, ids[n], ss[n], start, ids[k], ss[k].answer.Answered?);
    }
  }

  lemma {:induction false} ConcludedShows(b: Books, after: Books, t: TxId, answered: bool)
    requires Concluded(b, after, t, answered)
    ensures Shows(b, after, t, answered)
  {
  }

  lemma {:induction false} OneResultEach(b: Books, ids: seq<TxId>, ss: seq<Surroundings>)
    requires |ids| == |ss|
    ensures |ProcessAll(b, ids, ss).1| == |ids|
  {
    if ids != [] {
      hide Process;
      OneResultEach(b, ids[..|ids| - 1], ss[..|ids| - 1]);
    }
  }

  /** A webhook ends a known transaction that has one row at most, and that row with it; the
      successful one puts its identifier on both, the failed one leaves what is there. */
  lemma {:induction false} WebhooksDo(b: Books, t: TxId, id: TransferId, success: bool)
    ensures var after := if success then Confirm(b, t, id) else Deny(b, t);
            && after.made == b.made && after.pending == b.pending && after.txs.Keys == b.txs.Keys
            && |after.rows| == |b.rows|
            && if t !in b.txs
                  || exists i, j :: 0 <= i < j < |b.rows| && b.rows[i].tx == t && b.rows[j].tx == t
               then after == b
               else
                 && (forall u | u in b.txs && u != t :: after.txs[u] == b.txs[u])
                 && after.txs[t] == Tx(b.txs[t].payer, b.txs[t].payee,
                                       if success then Settled else SettlementFailed,
                                       if success then Some(id) else b.txs[t].reference)
                 && (forall i | 0 <= i < |b.rows| ::
                       after.rows[i] == if b.rows[i].tx != t then b.rows[i]
                                        else Row(t, if success then Completed else Failed,
                                                 if success then Some(id) else b.rows[i].transfer,
                                                 b.rows[i].attempts))
  {
  }

  /** A new transaction comes in verified and unsettled; what the provider executes is a
      transfer then, once. */
  lemma {:induction false} EntryAndExecutionDo(b: Books, t: TxId, payer: UserId, payee: UserId)
    ensures var after := Take(b, Sync(t, payer, payee));
            && after == b.(txs := after.txs) && after.txs.Keys == b.txs.Keys + {t}
            && (forall u | u in b.txs :: after.txs[u] == b.txs[u])
            && (t !in b.txs ==> after.txs[t] == Tx(payer, payee, Verified, None))
    ensures var after := Executed(b, t);
            && after == b.(made := after.made) && b.made <= after.made
            && |after.made| == |b.made| + (if t in b.made then 0 else 1) && t in after.made
  {
  }

  /** A copied status replaces that of its transaction and touches nothing else. */
  lemma {:induction false} CopyDoes(b: Books, t: TxId, code: nat)
    ensures var after := CopyStatus(b, t, code);
            && after.rows == b.rows && after.made == b.made && after.pending == b.pending
            && after.txs.Keys == b.txs.Keys
            && forall u | u in b.txs ::
                 after.txs[u] == Tx(b.txs[u].payer, b.txs[u].payee,
                                    if u == t then Reported(code) else b.txs[u].status, b.txs[u].reference)
  {
  }

  // ----------------------------------------------------------------- invariants

  /** No transfer is made twice. */
  ghost predicate PaidOnce(b: Books) {
    forall i, j | 0 <= i < j < |b.made| :: b.made[i] != b.made[j]
  }

  predicate Tells(b: Books, t: TxId, reference: Option<TransferId>) {
    reference.Some? ==> reference.value == TransferFor(t) && (t in b.made || t in b.pending)
  }

  /** Whatever transfer is recorded was sent for this transaction and not declined. */
  ghost predicate Truthful(b: Books) {
    && (forall i | 0 <= i < |b.rows| :: Tells(b, b.rows[i].tx, b.rows[i].transfer))
    && (forall t | t in b.txs :: Tells(b, t, b.txs[t].reference))
  }

  /** At most one row a transaction, and none while it is verified. */
  ghost predicate OneRowEach(b: Books) {
    && (forall i, j | 0 <= i < j < |b.rows| :: b.rows[i].tx != b.rows[j].tx)
    && (forall i | 0 <= i < |b.rows| :: b.rows[i].tx in b.txs && !b.txs[b.rows[i].tx].status.Verified?)
  }

  /** A row and its transaction tell the same story, unless a status was copied over it, and
      no story is left half told. */
  ghost predicate Agreed(b: Books) {
    && OneRowEach(b)
    && (forall t | t in b.txs ::
          || (b.txs[t].status.Verified? && b.txs[t].reference.None?)
          || (b.txs[t].status.Settled? && b.txs[t].reference.Some?)
          || b.txs[t].status.SettlementFailed?
          || b.txs[t].status.Reported?)
    && (forall i | 0 <= i < |b.rows| ::
          var tx := b.txs[b.rows[i].tx];
          && b.rows[i].transfer == tx.reference
          && b.rows[i].attempts == 1
          && !b.rows[i].status.Processing?
          && (!tx.status.Reported? ==> (b.rows[i].status.Completed? <==> tx.status.Settled?)))
  }

  /** What one state promises, the other does too. */
  ghost predicate Carries(b: Books, b': Books) {
    && (PaidOnce(b) ==> PaidOnce(b'))
    && (Truthful(b) ==> Truthful(b'))
    && (OneRowEach(b) ==> OneRowEach(b'))
    && (Agreed(b) ==> Agreed(b'))
  }

  lemma {:induction false} CarriesTwice(b0: Books, b1: Books, b2: Books)
    requires Carries(b0, b1) && Carries(b1, b2)
    ensures Carries(b0, b2)
  {
  }

  /** The provider forgets nothing. */
  ghost predicate Further(b: Books, b': Books) {
    b.made <= b'.made && b.pending <= b'.pending
  }

  lemma {:induction false} MadeStays(b: Books, b': Books, t: TxId)
    requires Further(b, b') && t in b.made
    ensures t in b'.made
  {
    var i :| 0 <= i < |b.made| && b.made[i] == t;
    assert b'.made[i] == t;
  }

  lemma {:induction false} FurtherTells(b: Books, after: Books)
    requires Truthful(b) && Further(b, after)
    ensures Truthful(Undone(b, after))
  {
    forall t: TxId | t in b.made ensures t in after.made {
      MadeStays(b, after, t);
    }
  }

  lemma {:induction false} UndoneKeeps(b: Books, after: Books)
    requires Further(b, after) && (PaidOnce(b) ==> PaidOnce(after))
    ensures Carries(b, Undone(b, after))
  {
    if Truthful(b) {
      FurtherTells(b, after);
    }
  }

  lemma {:induction false} SentKeeps(b: Books, t: TxId, answer: Answer)
    ensures var sent := Sent(b, t, answer);
            && sent == Undone(b, sent)
            && Further(b, sent) && Carries(b, sent)
            && (!answer.Declined? ==> t in sent.made || t in sent.pending)
  {
    var sent := Sent(b, t, answer);
    if sent.made != b.made {
      assert sent.made[|b.made|] == t;
    }
    UndoneKeeps(b, sent);
  }

  lemma {:induction false} BookedOneRow(b: Books, t: TxId, row: Row, status: TxStatus, reference: Option<TransferId>)
    requires OneRowEach(b) && t in b.txs && b.txs[t].status.Verified? && row.tx == t && !status.Verified?
    ensures OneRowEach(Booked(b, t, row, status, reference))
  {
  }

  lemma {:induction false} BookedAgreed(b: Books, t: TxId, row: Row, status: TxStatus)
    requires Agreed(b) && t in b.txs && b.txs[t].status.Verified? && row.tx == t && row.attempts == 1
    requires if row.transfer.Some? then row.status.Completed? && status.Settled?
             else row.status.Failed? && status.SettlementFailed?
    ensures Agreed(Booked(b, t, row, status, row.transfer))
  {
    BookedOneRow(b, t, row, status, row.transfer);
  }

  lemma {:induction false} BookedTruthful(b: Books, t: TxId, row: Row, status: TxStatus,
          reference: Option<TransferId>)
    requires Truthful(b) && t in b.txs && row.tx == t
    requires Tells(b, t, row.transfer) && Tells(b, t, reference)
    ensures Truthful(Booked(b, t, row, status, reference))
  {
  }

  lemma {:induction false} TruthfulReference(b: Books, t: TxId)
    requires Truthful(b) && t in b.txs
    ensures Tells(b, t, b.txs[t].reference)
  {
  }

  lemma {:induction false} AgreedVerified(b: Books, t: TxId)
    requires Agreed(b) && t in b.txs && b.txs[t].status.Verified?
    ensures OneRowEach(b) && Find(b.rows, t).NoRow? && b.txs[t].reference.None?
  {
  }

  lemma {:induction false} SettleKeeps(b: Books, t: TxId, answer: Answer)
    requires t in b.txs && b.txs[t].status.Verified? && !Find(b.rows, t).ManyRows?
    ensures var after := Settle(b, t, answer).0;
            Further(b, after) && Carries(b, after)
  {
    hide PaidOnce, Truthful, Agreed, OneRowEach, Sent;
    SentKeeps(b, t, answer);
    var sent := Sent(b, t, answer);
    var after := Settle(b, t, answer).0;
    var row := after.rows[|b.rows|];
    var (status, reference) := (after.txs[t].status, after.txs[t].reference);
    assert after == Booked(sent, t, row, status, reference);
    assert PaidOnce(sent) ==> PaidOnce(after) by {
      assert after.made == sent.made;
      SameMade(sent, after);
    }
    if OneRowEach(b) {
      BookedOneRow(sent, t, row, status, reference);
    }
    if Truthful(b) {
      TruthfulReference(sent, t);
      BookedTruthful(sent, t, row, status, reference);
    }
    if Agreed(b) {
      AgreedVerified(sent, t);
      BookedAgreed(sent, t, row, status);
    }
  }

  lemma {:induction false} SameMade(b: Books, b': Books)
    requires b'.made == b.made
    ensures PaidOnce(b) ==> PaidOnce(b')
  {
  }

  /** An attempt keeps every invariant there is. */
  lemma {:induction false} ProcessKeeps(b: Books, t: TxId, s: Surroundings)
    ensures var after := Process(b, t, s).0;
            Further(b, after) && Carries(b, after)
  {
    hide Settle;
    if t in b.txs && b.txs[t].status.Verified? && !Find(b.rows, t).ManyRows? {
      SettleKeeps(b, t, s.answer);
    }
  }

  /** So does a whole batch. */
  lemma {:induction false} ProcessAllKeeps(b: Books, ids: seq<TxId>, ss: seq<Surroundings>)
    requires |ids| == |ss|
    ensures var after := ProcessAll(b, ids, ss).0;
            Further(b, after) && Carries(b, after)
  {
    if ids != [] {
      hide Carries, Process;
      var n := |ids| - 1;
      ProcessAllKeeps(b, ids[..n], ss[..n]);
      var before := ProcessAll(b, ids[..n], ss[..n]).0;
      ProcessKeeps(before, ids[n], ss[n]);
      CarriesTwice(b, before, Process(before, ids[n], ss[n]).0);
    }
  }

  lemma {:induction false} ProcessOneKeeps(b: Books, t: TxId, s: Surroundings)
    ensures var after := ProcessOne(b, t, s).0;
            Further(b, after) && Carries(b, after)
  {
    hide Process;
    ProcessKeeps(b, t, s);
    UndoneKeeps(b, Process(b, t, s).0);
  }

  lemma {:induction false} ConfirmKeepsOneRow(b: Books, t: TxId, id: TransferId)
    requires OneRowEach(b)
    ensures OneRowEach(Confirm(b, t, id))
  {
  }

  lemma {:induction false} ConfirmKeepsAgreed(b: Books, t: TxId, id: TransferId)
    requires Agreed(b)
    ensures Agreed(Confirm(b, t, id))
  {
    ConfirmKeepsOneRow(b, t, id);
  }

  lemma {:induction false} ConfirmKeepsTruthful(b: Books, t: TxId)
    requires Truthful(b) && t in b.made
    ensures Truthful(Confirm(b, t, TransferFor(t)))
  {
  }

  lemma {:induction false} DenyKeepsOneRow(b: Books, t: TxId)
    requires OneRowEach(b)
    ensures OneRowEach(Deny(b, t))
  {
  }

  lemma {:induction false} DenyKeepsAgreed(b: Books, t: TxId)
    requires Agreed(b)
    ensures Agreed(Deny(b, t))
  {
    DenyKeepsOneRow(b, t);
  }

  lemma {:induction false} DenyKeepsTruthful(b: Books, t: TxId)
    requires Truthful(b)
    ensures Truthful(Deny(b, t))
  {
  }

  /** Neither webhook upsets anything, the success webhook as long as it is honest. */
  lemma {:induction false} HooksKeep(b: Books, t: TxId, id: TransferId)
    ensures Carries(b, Deny(b, t))
    ensures var after := Confirm(b, t, id);
            && (PaidOnce(b) ==> PaidOnce(after))
            && (OneRowEach(b) ==> OneRowEach(after))
            && (Agreed(b) ==> Agreed(after))
            && (Truthful(b) && id == TransferFor(t) && t in b.made ==> Truthful(after))
  {
    assert Confirm(b, t, id).made == b.made == Deny(b, t).made;
    SameMade(b, Confirm(b, t, id));
    SameMade(b, Deny(b, t));
    hide PaidOnce, Truthful, OneRowEach, Agreed, Confirm, Deny;
    if OneRowEach(b) {
      ConfirmKeepsOneRow(b, t, id);
      DenyKeepsOneRow(b, t);
    }
    if Agreed(b) {
      ConfirmKeepsAgreed(b, t, id);
      DenyKeepsAgreed(b, t);
    }
    if Truthful(b) {
      DenyKeepsTruthful(b, t);
      if id == TransferFor(t) && t in b.made {
        ConfirmKeepsTruthful(b, t);
      }
    }
  }

  lemma {:induction false} SyncKeeps(b: Books, t: TxId, payer: UserId, payee: UserId)
    ensures Carries(b, Take(b, Sync(t, payer, payee)))
  {
  }

  lemma {:induction false} CopyKeeps(b: Books, t: TxId, code: nat)
    ensures Carries(b, CopyStatus(b, t, code))
  {
  }

  lemma {:induction false} ExecutedKeeps(b: Books, t: TxId)
    ensures Carries(b, Executed(b, t)) && Further(b, Executed(b, t))
  {
    UndoneKeeps(b, Executed(b, t));
  }

  // ----------------------------------------------------------------------- runs

  lemma {:induction false} TakeKeeps(b: Books, step: Step)
    requires Legal(b, step)
    ensures var after := Take(b, step);
            && (PaidOnce(b) ==> PaidOnce(after))
            && (Truthful(b) && Honest(b, step) ==> Truthful(after))
            && (OneRowEach(b) ==> OneRowEach(after))
            && (Agreed(b) ==> Agreed(after))
  {
    hide PaidOnce, Truthful, OneRowEach, Agreed, ProcessAll, ProcessOne, Confirm, Deny, CopyStatus, Executed;
    match step
    case Sync(t, payer, payee) => SyncKeeps(b, t, payer, payee);
    case Single(t, s) => ProcessOneKeeps(b, t, s);
    case Batch(ids, ss) => ProcessAllKeeps(b, ids, ss);
    case Retry(picks, ss) => ProcessAllKeeps(b, TxIds(b.rows, picks), ss);
    case Execute(t) => ExecutedKeeps(b, t);
    case SuccessHook(t, id) => HooksKeep(b, t, id);
    case FailureHook(t) => HooksKeep(b, t, NoId);
    case Copy(t, code) => CopyKeeps(b, t, code);
  }

  lemma {:induction false} RunKeeps(b: Books, steps: seq<Step>)
    requires LegalRun(b, steps)
    ensures var after := Run(b, steps);
            && (PaidOnce(b) ==> PaidOnce(after))
            && (Truthful(b) && Throughout(b, steps, Honest) ==> Truthful(after))
            && (OneRowEach(b) ==> OneRowEach(after))
            && (Agreed(b) ==> Agreed(after))
    decreases |steps|
  {
    if steps != [] {
      hide PaidOnce, Truthful, OneRowEach, Agreed, Honest, Take;
      TakeKeeps(b, steps[0]);
      RunKeeps(Take(b, steps[0]), steps[1..]);
    }
  }

  /** In every run of syncs, settlements, retries, webhooks and copied statuses in any order:
      no transfer is made twice, no transaction has a second row, and none is verified that
      has one. */
  lemma {:induction false} ReachablePaysOnce(steps: seq<Step>)
    requires LegalRun(EMPTY_BOOKS, steps)
    ensures PaidOnce(Run(EMPTY_BOOKS, steps)) && OneRowEach(Run(EMPTY_BOOKS, steps))
  {
    RunKeeps(EMPTY_BOOKS, steps);
  }

  /** In every run rows and transactions agree on transfer and, where no status was copied
      over it, on status, and nothing committed is settling. */
  lemma {:induction false} ReachableAgrees(steps: seq<Step>)
    requires LegalRun(EMPTY_BOOKS, steps)
    ensures Agreed(Run(EMPTY_BOOKS, steps))
  {
    RunKeeps(EMPTY_BOOKS, steps);
  }

  /** In every run with honest webhooks: every transfer on record is that of the transaction
      that records it, and the provider has executed or at least accepted it. */
  lemma {:induction false} ReachableIsTruthful(steps: seq<Step>)
    requires LegalRun(EMPTY_BOOKS, steps) && Throughout(EMPTY_BOOKS, steps, Honest)
    ensures Truthful(Run(EMPTY_BOOKS, steps))
  {
    RunKeeps(EMPTY_BOOKS, steps);
  }

  // ------------------------------------------------------------ settled and paid

  /** Nobody is taken for paid who has not been. */
  ghost predicate SettledPaid(b: Books) {
    forall t | t in b.txs && b.txs[t].status.Settled? :: t in b.made
  }

  /** The attempt gets as far as the transfer. */
  predicate Reaches(b: Books, t: TxId, s: Surroundings) {
    && t in b.txs && b.txs[t].status.Verified?
    && !Find(b.rows, t).ManyRows?
    && !(Find(b.rows, t).OneRow? && b.rows[Find(b.rows, t).index].status.Completed?)
    && s.lockFree && b.txs[t].payee in s.users && b.txs[t].payer in s.users
  }

  /** And is answered although the provider has not executed it, now or before. */
  predicate Premature(b: Books, t: TxId, s: Surroundings) {
    Reaches(b, t, s) && s.answer == Answered(false) && t !in b.made
  }

  lemma {:induction false} SentMade(b: Books, t: TxId, answer: Answer)
    ensures Sent(b, t, answer) == Undone(b, Sent(b, t, answer))
    ensures forall u | u in b.made :: u in Sent(b, t, answer).made
    ensures t in Sent(b, t, answer).made <==> t in b.made || (!answer.Declined? && answer.executed)
  {
    var sent := Sent(b, t, answer);
    if sent.made != b.made {
      assert sent.made == b.made + [t];
    }
  }

  /** The service never looks at the status in the answer: an attempt keeps "settled means
      paid" if and only if it is not one answered for a transfer that is not executed. */
  lemma {:induction false} ProcessKeepsPaidIff(b: Books, t: TxId, s: Surroundings)
    requires SettledPaid(b)
    ensures SettledPaid(Process(b, t, s).0) <==> !Premature(b, t, s)
  {
    SentMade(b, t, s.answer);
    hide Sent;
    var after := Process(b, t, s).0;
    if Premature(b, t, s) {
      assert after.txs[t].status.Settled? && t !in after.made;
    }
  }

  /** No attempt of the batch, in turn, is. */
  ghost predicate PromptAll(b: Books, ids: seq<TxId>, ss: seq<Surroundings>)
    requires |ids| == |ss|
  {
    if ids == [] then true
    else
      var n := |ids| - 1;
      PromptAll(b, ids[..n], ss[..n]) && !Premature(ProcessAll(b, ids[..n], ss[..n]).0, ids[n], ss[n])
  }

  ghost predicate Prompt(b: Books, step: Step) {
    match step
    case Single(t, s) => !Premature(b, t, s)
    case Batch(ids, ss) => |ids| == |ss| ==> PromptAll(b, ids, ss)
    case Retry(picks, ss) => PendingRetry(b, picks) && |picks| == |ss| ==> PromptAll(b, TxIds(b.rows, picks), ss)
    case _ => true
  }

  lemma {:induction false} ProcessAllKeepsPaid(b: Books, ids: seq<TxId>, ss: seq<Surroundings>)
    requires SettledPaid(b) && |ids| == |ss| && PromptAll(b, ids, ss)
    ensures SettledPaid(ProcessAll(b, ids, ss).0)
  {
    if ids != [] {
      hide SettledPaid, Process, Premature;
      var n := |ids| - 1;
      ProcessAllKeepsPaid(b, ids[..n], ss[..n]);
      ProcessKeepsPaidIff(ProcessAll(b, ids[..n], ss[..n]).0, ids[n], ss[n]);
    }
  }

  lemma {:induction false} UndoneKeepsPaid(b: Books, after: Books)
    requires SettledPaid(b) && Further(b, after)
    ensures SettledPaid(Undone(b, after))
  {
    forall t: TxId | t in b.made ensures t in after.made {
      MadeStays(b, after, t);
    }
  }

  lemma {:induction false} TakeKeepsPaid(b: Books, step: Step)
    requires Legal(b, step) && SettledPaid(b) && Honest(b, step) && Prompt(b, step)
    ensures SettledPaid(Take(b, step))
  {
    hide Process, ProcessAll, Premature, PromptAll;
    match step
    case Single(t, s) =>
      ProcessKeepsPaidIff(b, t, s);
      ProcessKeeps(b, t, s);
      UndoneKeepsPaid(b, Process(b, t, s).0);
    case Batch(ids, ss) => ProcessAllKeepsPaid(b, ids, ss);
    case Retry(picks, ss) => ProcessAllKeepsPaid(b, TxIds(b.rows, picks), ss);
    case Execute(t) =>
      ExecutedKeeps(b, t);
      UndoneKeepsPaid(b, Executed(b, t));
    case _ =>
  }

  lemma {:induction false} RunKeepsPaid(b: Books, steps: seq<Step>)
    requires LegalRun(b, steps) && SettledPaid(b)
    requires Throughout(b, steps, Honest) && Throughout(b, steps, Prompt)
    ensures SettledPaid(Run(b, steps))
    decreases |steps|
  {
    if steps != [] {
      hide SettledPaid, Honest, Prompt, Take;
      TakeKeepsPaid(b, steps[0]);
      RunKeepsPaid(Take(b, steps[0]), steps[1..]);
    }
  }

  /** In every run with honest webhooks in which no attempt is answered too early, copied
      statuses included, settled means paid: the transfer on record has been executed, for
      this very transaction. */
  lemma {:induction false} SettledMeansPaid(steps: seq<Step>, t: TxId)
    requires LegalRun(EMPTY_BOOKS, steps)
    requires Throughout(EMPTY_BOOKS, steps, Honest) && Throughout(EMPTY_BOOKS, steps, Prompt)
    requires t in Run(EMPTY_BOOKS, steps).txs && Run(EMPTY_BOOKS, steps).txs[t].status.Settled?
    ensures var b := Run(EMPTY_BOOKS, steps);
            t in b.made && b.txs[t].reference == Some(TransferFor(t))
  {
    RunKeeps(EMPTY_BOOKS, steps);
    RunKeepsPaid(EMPTY_BOOKS, steps);
    TruthfulReference(Run(EMPTY_BOOKS, steps), t);
  }

  predicate SettledAndPaid(b: Books, t: TxId) {
    t in b.txs && b.txs[t].status.Settled? && t in b.made
  }

  lemma {:induction false} PaidIsSettled(b: Books, t: TxId, s: Surroundings)
    requires OneRowEach(b) && !Premature(b, t, s)
    ensures var (after, result) := Process(b, t, s);
            && (result.Paid? ==> SettledAndPaid(after, t))
            && forall u | SettledAndPaid(b, u) :: SettledAndPaid(after, u)
  {
    SentMade(b, t, s.answer);
    hide Sent;
  }

  /** Whether what was reported so far is true. */
  ghost predicate ReportedTrue(b: Books, ids: seq<TxId>, results: seq<Result>) {
    |results| == |ids| && forall i | 0 <= i < |ids| && results[i].Paid? :: SettledAndPaid(b, ids[i])
  }

  lemma {:induction false} ReportGrows(b: Books, b': Books, ids: seq<TxId>, results: seq<Result>, t: TxId, r: Result)
    requires ReportedTrue(b, ids, results)
    requires forall u | SettledAndPaid(b, u) :: SettledAndPaid(b', u)
    requires r.Paid? ==> SettledAndPaid(b', t)
    ensures ReportedTrue(b', ids + [t], results + [r])
  {
    hide SettledAndPaid;
    forall i | 0 <= i <= |ids| && (results + [r])[i].Paid? ensures SettledAndPaid(b', (ids + [t])[i]) {
      if i < |ids| {
        assert SettledAndPaid(b, ids[i]);
      }
    }
  }

  /** Then whatever a batch reports as a success has been paid and is settled, in whatever
      state the batch finds the books. */
  lemma {:induction false} ReportIsTrue(b: Books, ids: seq<TxId>, ss: seq<Surroundings>)
    requires OneRowEach(b) && |ids| == |ss| && PromptAll(b, ids, ss)
    ensures ReportedTrue(ProcessAll(b, ids, ss).0, ids, ProcessAll(b, ids, ss).1)
  {
    if ids != [] {
      hide OneRowEach, Process, Premature, ReportedTrue, SettledAndPaid;
      var n := |ids| - 1;
      var (before, results) := ProcessAll(b, ids[..n], ss[..n]);
      var (after, r) := Process(before, ids[n], ss[n]);
      ReportIsTrue(b, ids[..n], ss[..n]);
      ProcessAllKeeps(b, ids[..n], ss[..n]);
      PaidIsSettled(before, ids[n], ss[n]);
      ReportGrows(before, after, ids[..n], results, ids[n], r);
      assert ids == ids[..n] + [ids[n]];
    }
  }

  const BOTH: set<UserId> := {1, 2}

  function Settler(executed: bool): Surroundings {
    Surroundings(true, BOTH, Answered(executed))
  }

  /** A first attempt that is answered. */
  lemma {:induction false} FirstAttempt(b: Books, t: TxId, executed: bool)
    requires t in b.txs && b.txs[t] == Tx(1, 2, Verified, None) && t !in b.made
    requires forall i | 0 <= i < |b.rows| :: b.rows[i].tx != t
    ensures var after := Take(b, Single(t, Settler(executed)));
            && after.rows == b.rows + [Row(t, Completed, Some(TransferFor(t)), 1)]
            && after.txs == b.txs[t := Tx(1, 2, Settled, Some(TransferFor(t)))]
            && after.made == b.made + if executed then [t] else []
  {
  }

  const PREMATURE: seq<Step> := [Sync(1, 1, 2), Single(1, Settler(false))]

  /** One answer "new" is enough to settle a transaction nobody has been paid for; if the
      transfer then fails, it is left failed and no worker tries again. */
  lemma {:induction false} SettledUnpaid(s: Surroundings)
    ensures LegalRun(EMPTY_BOOKS, PREMATURE)
    ensures var b := Run(EMPTY_BOOKS, PREMATURE);
            && 1 in b.txs && b.txs[1].status.Settled? && b.made == []
            && Process(Deny(b, 1), 1, s) == (Deny(b, 1), Raised(WrongStatus))
  {
    var b1 := Take(EMPTY_BOOKS, PREMATURE[0]);
    FirstAttempt(b1, 1, false);
    hide ProcessOne, Find;
    var b2 := Take(b1, PREMATURE[1]);
    NotMany(b2, 1);
    assert LegalRun(b2, PREMATURE[2..]) && Run(b2, PREMATURE[2..]) == b2;
    assert LegalRun(b1, PREMATURE[1..]) && Run(b1, PREMATURE[1..]) == b2;
  }

  lemma {:induction false} NotMany(b: Books, t: TxId)
    requires |b.rows| == 1
    ensures !Find(b.rows, t).ManyRows?
  {
  }

  // ------------------------------------------------------- identifiers on two rows

  ghost predicate NoSharedId(b: Books) {
    forall i, j | 0 <= i < j < |b.rows| :: b.rows[i].transfer.Some? ==> b.rows[i].transfer != b.rows[j].transfer
  }

  predicate Own(t: TxId, id: TransferId) {
    id == TransferFor(t) || id == NoId
  }

  /** What identifiers there are on rows are of those transactions. */
  ghost predicate OwnIds(b: Books) {
    forall i | 0 <= i < |b.rows| && b.rows[i].transfer.Some? :: Own(b.rows[i].tx, b.rows[i].transfer.value)
  }

  /** A success webhook brings the identifier of its own transfer, if any. */
  predicate Proper(b: Books, step: Step) {
    step.SuccessHook? ==> Own(step.tx, step.id)
  }

  /** A success webhook brings an identifier that another row has. */
  predicate BringsTaken(b: Books, step: Step) {
    && step.SuccessHook? && step.tx in b.txs
    && var found := Find(b.rows, step.tx);
       && found.OneRow?
       && exists j :: 0 <= j < |b.rows| && j != found.index && b.rows[j].transfer == Some(step.id)
  }

  ghost predicate Labelled(b: Books) {
    OneRowEach(b) && OwnIds(b) && NoSharedId(b)
  }

  lemma {:induction false} ProcessKeepsLabels(b: Books, t: TxId, s: Surroundings)
    requires Labelled(b)
    ensures Labelled(Process(b, t, s).0)
  {
    ProcessKeeps(b, t, s);
    SentMade(b, t, s.answer);
    hide Sent;
  }

  lemma {:induction false} ProcessAllKeepsLabels(b: Books, ids: seq<TxId>, ss: seq<Surroundings>)
    requires Labelled(b) && |ids| == |ss|
    ensures Labelled(ProcessAll(b, ids, ss).0)
  {
    if ids != [] {
      hide Labelled, Process;
      var n := |ids| - 1;
      ProcessAllKeepsLabels(b, ids[..n], ss[..n]);
      ProcessKeepsLabels(ProcessAll(b, ids[..n], ss[..n]).0, ids[n], ss[n]);
    }
  }

  lemma {:induction false} ConfirmKeepsIdsIff(b: Books, t: TxId, id: TransferId)
    requires Labelled(b) && Own(t, id)
    ensures OneRowEach(Confirm(b, t, id)) && OwnIds(Confirm(b, t, id))
    ensures NoSharedId(Confirm(b, t, id)) <==> !BringsTaken(b, SuccessHook(t, id))
  {
    ConfirmKeepsOneRow(b, t, id);
    var after := Confirm(b, t, id);
    if BringsTaken(b, SuccessHook(t, id)) {
      var i := Find(b.rows, t).index;
      var j :| 0 <= j < |b.rows| && j != i && b.rows[j].transfer == Some(id);
      assert after.rows[i].transfer == after.rows[j].transfer == Some(id);
    }
  }

  lemma {:induction false} SameLabels(b: Books, b': Books)
    requires OwnIds(b) && NoSharedId(b) && |b'.rows| == |b.rows|
    requires forall i | 0 <= i < |b.rows| :: b'.rows[i].tx == b.rows[i].tx && b'.rows[i].transfer == b.rows[i].transfer
    ensures OwnIds(b') && NoSharedId(b')
  {
  }

  /** The deployed tables have no unique index on the identifier: a step leaves it on one row
      at most if and only if it is not a webhook that brings an identifier another row has. */
  lemma {:induction false} TakeKeepsIdsIff(b: Books, step: Step)
    requires Labelled(b) && Legal(b, step) && Proper(b, step)
    ensures OneRowEach(Take(b, step)) && OwnIds(Take(b, step))
    ensures NoSharedId(Take(b, step)) <==> !BringsTaken(b, step)
  {
    TakeKeeps(b, step);
    match step
    case Single(t, s) =>
      hide Process;
      ProcessKeepsLabels(b, t, s);
      SameLabels(b, Undone(b, Process(b, t, s).0));
    case Batch(ids, ss) =>
      hide ProcessAll;
      ProcessAllKeepsLabels(b, ids, ss);
    case Retry(picks, ss) =>
      hide ProcessAll;
      ProcessAllKeepsLabels(b, TxIds(b.rows, picks), ss);
    case SuccessHook(t, id) =>
      hide Confirm, OneRowEach, OwnIds, NoSharedId;
      ConfirmKeepsIdsIff(b, t, id);
    case _ =>
      SameLabels(b, Take(b, step));
  }

  predicate BringsNew(b: Books, step: Step) {
    Proper(b, step) && !BringsTaken(b, step)
  }

  /** So no identifier is on two rows in any run whose webhooks never do that. */
  lemma {:induction false} IdsStayDistinct(b: Books, steps: seq<Step>)
    requires LegalRun(b, steps) && Labelled(b) && Throughout(b, steps, BringsNew)
    ensures NoSharedId(Run(b, steps))
    decreases |steps|
  {
    if steps != [] {
      hide OneRowEach, OwnIds, NoSharedId, Proper, BringsTaken, Take;
      TakeKeepsIdsIff(b, steps[0]);
      IdsStayDistinct(Take(b, steps[0]), steps[1..]);
    }
  }

  const NAMELESS: seq<Step> :=
    [Sync(1, 1, 2), Sync(2, 1, 2), Single(1, Settler(true)), Single(2, Settler(true)), SuccessHook(1, NoId),
     SuccessHook(2, NoId)]

  lemma {:induction false} TwoSettled(b: Books)
    requires b == Books(map[1 := Tx(1, 2, Verified, None), 2 := Tx(1, 2, Verified, None)], [], [], {})
    ensures var b' := Take(Take(b, NAMELESS[2]), NAMELESS[3]);
            && b'.rows == [Row(1, Completed, Some(TransferFor(1)), 1), Row(2, Completed, Some(TransferFor(2)), 1)]
            && 1 in b'.txs && 2 in b'.txs
  {
    hide Take;
    FirstAttempt(b, 1, true);
    FirstAttempt(Take(b, NAMELESS[2]), 2, true);
  }

  lemma {:induction false} BothNameless(b: Books)
    requires b.rows == [Row(1, Completed, Some(TransferFor(1)), 1), Row(2, Completed, Some(TransferFor(2)), 1)]
    requires 1 in b.txs && 2 in b.txs
    ensures !NoSharedId(Confirm(Confirm(b, 1, NoId), 2, NoId))
  {
    var b1 := Confirm(b, 1, NoId);
    assert Find(b.rows, 1) == OneRow(0);
    assert Find(b1.rows, 2) == OneRow(1);
    var b2 := Confirm(b1, 2, NoId);
    assert b2.rows[0].transfer == b2.rows[1].transfer == Some(NoId);
  }

  /** Two webhooks without an identifier leave the same empty one on two rows. */
  lemma {:induction false} EmptyIdsCollide()
    ensures LegalRun(EMPTY_BOOKS, NAMELESS) && !NoSharedId(Run(EMPTY_BOOKS, NAMELESS))
  {
    var b1 := Take(EMPTY_BOOKS, NAMELESS[0]);
    var b2 := Take(b1, NAMELESS[1]);
    TwoSettled(b2);
    var b3 := Take(b2, NAMELESS[2]);
    var b4 := Take(b3, NAMELESS[3]);
    BothNameless(b4);
    hide ProcessOne, Confirm, NoSharedId;
    var b5 := Take(b4, NAMELESS[4]);
    var b6 := Take(b5, NAMELESS[5]);
    assert LegalRun(b6, NAMELESS[6..]) && Run(b6, NAMELESS[6..]) == b6;
    assert LegalRun(b5, NAMELESS[5..]) && Run(b5, NAMELESS[5..]) == b6;
    assert LegalRun(b4, NAMELESS[4..]) && Run(b4, NAMELESS[4..]) == b6;
    assert LegalRun(b3, NAMELESS[3..]) && Run(b3, NAMELESS[3..]) == b6;
    assert LegalRun(b2, NAMELESS[2..]) && Run(b2, NAMELESS[2..]) == b6;
    assert LegalRun(b1, NAMELESS[1..]) && Run(b1, NAMELESS[1..]) == b6;
  }

  // ----------------------------------------------------------- beyond the workers

  /** What the workers leave alone. */
  predicate Stranded(b: Books, t: TxId) {
    t in b.txs && (b.txs[t].status.SettlementFailed? || b.txs[t].status.Reported?)
  }

  lemma {:induction false} StrandedAreSkipped(b: Books, ids: seq<TxId>, ss: seq<Surroundings>)
    requires |ids| == |ss| && forall i | 0 <= i < |ids| :: Stranded(b, ids[i])
    ensures var (after, results) := ProcessAll(b, ids, ss);
            after == b && |results| == |ids| && forall i | 0 <= i < |ids| :: results[i] == Raised(WrongStatus)
  {
    if ids != [] {
      StrandedAreSkipped(b, ids[..|ids| - 1], ss[..|ids| - 1]);
    }
  }

  lemma {:induction false} RetriesNothing(b: Books, picks: seq<nat>, ss: seq<Surroundings>)
    requires Agreed(b) && PendingRetry(b, picks) && |picks| == |ss|
    ensures var (after, results) := ProcessAll(b, TxIds(b.rows, picks), ss);
            after == b && |results| == |picks| && forall i | 0 <= i < |picks| :: results[i] == Raised(WrongStatus)
  {
    StrandedAreSkipped(b, TxIds(b.rows, picks), ss);
  }

  /** The retry worker, documented as retrying failed settlements, never settles one: in
      every reachable state, copied statuses included, each row it picks belongs to a
      transaction whose status stops the attempt, and nothing changes. */
  lemma {:induction false} RetryNeverSettles(steps: seq<Step>, picks: seq<nat>, ss: seq<Surroundings>)
    requires LegalRun(EMPTY_BOOKS, steps) && PendingRetry(Run(EMPTY_BOOKS, steps), picks) && |picks| == |ss|
    ensures var b := Run(EMPTY_BOOKS, steps);
            var (after, results) := ProcessAll(b, TxIds(b.rows, picks), ss);
            after == b && |results| == |picks| && forall i | 0 <= i < |picks| :: results[i] == Raised(WrongStatus)
  {
    hide Agreed;
    RunKeeps(EMPTY_BOOKS, steps);
    EmptyAgrees();
    RetriesNothing(Run(EMPTY_BOOKS, steps), picks, ss);
  }

  lemma {:induction false} EmptyAgrees()
    ensures Agreed(EMPTY_BOOKS)
  {
  }

  /** Some worker, given the right surroundings, can settle the transaction. */
  ghost predicate Payable(b: Books, t: TxId) {
    exists s :: Process(b, t, s).1.Paid?
  }

  lemma {:induction false} PayableIff(b: Books, t: TxId)
    requires OneRowEach(b)
    ensures Payable(b, t) <==> t in b.txs && b.txs[t].status.Verified?
  {
    if t in b.txs && b.txs[t].status.Verified? {
      assert Find(b.rows, t).NoRow?;
      var s := Surroundings(true, {b.txs[t].payer, b.txs[t].payee}, Answered(true));
      assert Process(b, t, s).1.Paid?;
    }
  }

  /** What a copied status breaks: a transaction can be settled by a worker after the copy
      if and only if it is verified and not the one the status was copied onto. */
  lemma {:induction false} CopyStrandsIff(b: Books, t: TxId, code: nat, u: TxId)
    requires OneRowEach(b)
    ensures Payable(CopyStatus(b, t, code), u) <==> u in b.txs && b.txs[u].status.Verified? && u != t
  {
    CopyKeeps(b, t, code);
    PayableIff(CopyStatus(b, t, code), u);
  }

  lemma {:induction false} ProcessAllLeavesStranded(b: Books, ids: seq<TxId>, ss: seq<Surroundings>, t: TxId)
    requires |ids| == |ss| && Stranded(b, t)
    ensures var after := ProcessAll(b, ids, ss).0;
            t in after.txs && after.txs[t] == b.txs[t]
  {
    if ids != [] {
      ProcessAllLeavesStranded(b, ids[..|ids| - 1], ss[..|ids| - 1], t);
    }
  }

  lemma {:induction false} TakeLeavesStranded(b: Books, step: Step, t: TxId)
    requires Legal(b, step) && Stranded(b, t) && !(step.SuccessHook? && step.tx == t)
    ensures Stranded(Take(b, step), t)
  {
    match step
    case Batch(ids, ss) => ProcessAllLeavesStranded(b, ids, ss, t);
    case Retry(picks, ss) => ProcessAllLeavesStranded(b, TxIds(b.rows, picks), ss, t);
    case _ =>
  }

  /** A failure that was committed, or a status that was copied, is final: only a success
      webhook for that very transaction ever gets it settled. */
  lemma {:induction false} CommittedFailureIsFinal(b: Books, steps: seq<Step>, t: TxId)
    requires LegalRun(b, steps) && Stranded(b, t)
    requires forall i | 0 <= i < |steps| :: !(steps[i].SuccessHook? && steps[i].tx == t)
    ensures Stranded(Run(b, steps), t)
    decreases |steps|
  {
    if steps != [] {
      TakeLeavesStranded(b, steps[0], t);
      CommittedFailureIsFinal(Take(b, steps[0]), steps[1..], t);
    }
  }

  function PaidCount(results: seq<Result>): nat {
    if results == [] then 0
    else PaidCount(results[..|results| - 1]) + if results[|results| - 1].Paid? then 1 else 0
  }

  lemma {:induction false} PaidCountAppend(results: seq<Result>, r: Result)
    ensures PaidCount(results + [r]) == PaidCount(results) + if r.Paid? then 1 else 0
  {
    assert (results + [r])[..|results|] == results;
  }

  lemma {:induction false} PaidCountIs(results: seq<Result>)
    ensures PaidCount(results) == |set i | 0 <= i < |results| && results[i].Paid?|
  {
    if results != [] {
      var n := |results| - 1;
      PaidCountIs(results[..n]);
      var front := set i | 0 <= i < n && results[..n][i].Paid?;
      var all := set i | 0 <= i < |results| && results[i].Paid?;
      assert all == if results[n].Paid? then front + {n} else front;
    }
  }

  // ------------------------------------------------------------------ the services

  /** The two tables of one session. */
  class Session {
    var txs: map<TxId, Tx>
    var rows: seq<Row>
    ghost var made: seq<TxId>
    ghost var pending: set<TxId>

    constructor ()
      ensures View() == EMPTY_BOOKS
    {
      txs, rows, made, pending := map[], [], [], {};
    }

    ghost function View(): Books
      reads this
    {
      Books(txs, rows, made, pending)
    }

    method UpdateStatus(t: TxId, status: TxStatus)
      requires t in txs
      modifies this`txs
      ensures View() == SetTx(old(View()), t, status, old(txs)[t].reference)
    {
      txs := txs[t := txs[t].(status := status)];
    }

    method MarkSettled(t: TxId, id: TransferId)
      requires t in txs
      modifies this`txs
      ensures View() == SetTx(old(View()), t, Settled, Some(id))
    {
      txs := txs[t := txs[t].(status := Settled, reference := Some(id))];
    }

    method MarkCompleted(row: nat, id: TransferId)
      requires row < |rows|
      modifies this`rows
      ensures var completed := old(rows)[row].(status := Completed, transfer := Some(id));
              View() == old(View()).(rows := old(rows)[row := completed])
    {
      rows := rows[row := rows[row].(status := Completed, transfer := Some(id))];
    }

    method MarkFailed(row: nat)
      requires row < |rows|
      modifies this`rows
      ensures View() == old(View()).(rows := old(rows)[row := old(rows)[row].(status := Failed)])
    {
      rows := rows[row := rows[row].(status := Failed)];
    }

    /** The provider's side of the call. */
    ghost method Send(t: TxId, answer: Answer)
      modifies this`made, this`pending
      ensures View() == Sent(old(View()), t, answer)
    {
      var sent := Sent(View(), t, answer);
      made, pending := sent.made, sent.pending;
    }

    method ProcessSettlement(t: TxId, s: Surroundings) returns (result: Result)
      modifies this
      ensures (View(), result) == Process(old(View()), t, s)
    {
      if t !in txs {
        return Raised(TxNotFound);
      }
      if txs[t].status.Settled? {
        return Raised(AlreadyProcessed);
      }
      if !txs[t].status.Verified? {
        return Raised(WrongStatus);
      }
      var existing := Find(rows, t);
      if existing.ManyRows? {
        return Raised(MultipleRows);
      }
      if existing.OneRow? && rows[existing.index].status.Completed? {
        return Paid(rows[existing.index].transfer, true);
      }
      if !s.lockFree {
        return Raised(InProgress);
      }
      if txs[t].payee !in s.users || txs[t].payer !in s.users {
        return Raised(UserNotFound);
      }
      hide Find;
      var attempts := if existing.OneRow? then rows[existing.index].attempts + 1 else 1;
      var row := |rows|;
      rows := rows + [Row(t, Processing, None, attempts)];
      UpdateStatus(t, Settling);
      Send(t, s.answer);
      if s.answer.Answered? {
        var id := TransferFor(t);
        MarkCompleted(row, id);
        MarkSettled(t, id);
        assert rows == old(rows) + [Row(t, Completed, Some(id), attempts)];
        assert txs == old(txs)[t := old(txs)[t].(status := Settled, reference := Some(id))];
        return Paid(Some(id), false);
      }
      MarkFailed(row);
      UpdateStatus(t, SettlementFailed);
      assert rows == old(rows) + [Row(t, Failed, None, attempts)];
      assert txs == old(txs)[t := old(txs)[t].(status := SettlementFailed)];
      return Raised(TransferFailed);
    }

    /** The single worker: what raises rolls the session back. */
    method ProcessInOwnSession(t: TxId, s: Surroundings) returns (result: Result)
      modifies this
      ensures (View(), result) == ProcessOne(old(View()), t, s)
    {
      hide Process;
      var savedTxs, savedRows := txs, rows;
      result := ProcessSettlement(t, s);
      if result.Raised? {
        txs, rows := savedTxs, savedRows;
      }
    }

    /** The batch worker. */
    method ProcessBatchSettlements(ids: seq<TxId>, ss: seq<Surroundings>)
      returns (successful: nat, results: seq<Result>)
      requires |ids| == |ss|
      modifies this
      ensures (View(), results) == ProcessAll(old(View()), ids, ss)
      ensures successful == |set i | 0 <= i < |results| && results[i].Paid?|
    {
      results := [];
      successful := 0;
      for i := 0 to |ids|
        invariant (View(), results) == ProcessAll(old(View()), ids[..i], ss[..i])
        invariant successful == PaidCount(results)
      {
        hide Process;
        assert ids[..i + 1][..i] == ids[..i] && ss[..i + 1][..i] == ss[..i];
        var result := ProcessSettlement(ids[i], ss[i]);
        PaidCountAppend(results, result);
        results := results + [result];
        if result.Paid? {
          successful := successful + 1;
        }
      }
      assert ids[..|ids|] == ids && ss[..|ss|] == ss;
      PaidCountIs(results);
    }

    /** The retry worker over the rows the query picked: from an agreed state, and every
        reachable one is, it settles nothing, whatever the surroundings. */
    method RetryFailedSettlements(picks: seq<nat>, ss: seq<Surroundings>) returns (successCount: nat)
      requires PendingRetry(View(), picks) && |picks| == |ss|
      modifies this
      ensures View() == ProcessAll(old(View()), TxIds(old(rows), picks), ss).0
      ensures old(Agreed(View())) ==> successCount == 0 && View() == old(View())
    {
      ghost var before := View();
      var ids := TxIds(rows, picks);
      var count, results := ProcessBatchSettlements(ids, ss);
      successCount := count;
      if Agreed(before) {
        RetriesNothing(before, picks, ss);
        assert (set i | 0 <= i < |results| && results[i].Paid?) == {};
      }
    }

    method TransferSuccessWebhook(t: TxId, id: TransferId)
      modifies this
      ensures View() == Confirm(old(View()), t, id)
    {
      if t !in txs {
        return;
      }
      var savedTxs := txs;
      MarkSettled(t, id);
      match Find(rows, t) {
        case ManyRows => txs := savedTxs;
        case NoRow =>
        case OneRow(i) => MarkCompleted(i, id);
      }
    }

    method TransferFailedWebhook(t: TxId)
      modifies this
      ensures View() == Deny(old(View()), t)
    {
      if t !in txs {
        return;
      }
      var savedTxs := txs;
      UpdateStatus(t, SettlementFailed);
      match Find(rows, t) {
        case ManyRows => txs := savedTxs;
        case NoRow =>
        case OneRow(i) => MarkFailed(i);
      }
    }
  }
}
