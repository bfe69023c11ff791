/** Batch sync of offline transactions (app/services/transaction_service.py with the
    nonce and sequence keys of app/core/redis.py). */
module Sync {
  import opened Types
  import opened Tokens

  type TxId = nat
  type Nonce = nat

  const MAX_BATCH := 100

  /** The required fields, in the order in which they are looked at. */
  datatype Field =
    | TxIdField | TokenIdField | PayerField | PayeeField | AmountField | NonceField
    | SequenceField | InitiatedAtField | PayerSignatureField | MerchantSignatureField | PayloadHashField

  const REQUIRED := [TxIdField, TokenIdField, PayerField, PayeeField, AmountField, NonceField,
                     SequenceField, InitiatedAtField, PayerSignatureField, MerchantSignatureField, PayloadHashField]

  /** One element of a batch.  `blank` holds the textual fields that are absent or empty;
      a zero amount or sequence number is falsy too, so it also counts as missing.  A
      party is None when its identifier is not the text of a UUID; so is the payer device,
      also when it is absent: the default is not text but a UUID, which does not parse. */
  datatype RawTx = RawTx(
    txId: TxId, token: TokenId, payer: Option<UserId>, payee: Option<UserId>, amount: int, nonce: Nonce,
    sequence: int, payerDevice: Option<DeviceId>, blank: set<Field>)
  {
    predicate Lacks(f: Field) {
      match f
      case AmountField => amount == 0
      case SequenceField => sequence == 0
      case _ => f in blank
    }

    predicate Complete() {
      forall i | 0 <= i < |REQUIRED| :: !Lacks(REQUIRED[i])
    }
  }

  datatype Reason =
    | Missing(field: Field)
    | TokenNotFound
    | TokenNotActive(status: Status)
    | TokenExpired
    | InsufficientTokenLimit
    | PayerNotFound
    | PayeeNotFound
    | PayerDeviceNotFound
    | ReplayDetected
    | StaleSequence

  datatype Verdict = Accepted | Duplicate | Rejected(reason: Reason)

  /** A transactions row, with the device under which its sequence number was tracked. */
  datatype Transaction = Transaction(
    txId: TxId, payer: UserId, payee: UserId, token: TokenId, device: DeviceId, nonce: Nonce, sequence: int,
    amount: int)

  /** A spend booked directly on a token; kept as history, no table holds it. */
  datatype Spend = Spend(token: TokenId, amount: int)

  datatype World = World(
    bank: Bank, txs: seq<Transaction>, nonces: set<Nonce>, sequences: map<(DeviceId, TokenId), int>,
    spends: seq<Spend>)

  const EMPTY_WORLD := World(EMPTY_BANK, [], {}, map[], [])

  /** The users and devices tables, which sync only reads. */
  datatype Directory = Directory(users: set<UserId>, devices: set<DeviceId>)

  predicate Exists(txs: seq<Transaction>, id: TxId) {
    exists i :: 0 <= i < |txs| && txs[i].txId == id
  }

  /** Nonces of stored transactions are unique in the database too. */
  predicate NonceStored(txs: seq<Transaction>, nonce: Nonce) {
    exists i :: 0 <= i < |txs| && txs[i].nonce == nonce
  }

  /** The first missing field at or after position `from`. */
  function FirstMissing(tx: RawTx, from: nat): (f: Option<Field>)
    requires from <= |REQUIRED|
    ensures f.None? <==> forall i | from <= i < |REQUIRED| :: !tx.Lacks(REQUIRED[i])
    ensures f.Some? ==> exists i :: from <= i < |REQUIRED| && REQUIRED[i] == f.value && tx.Lacks(f.value)
                                    && forall j | from <= j < i :: !tx.Lacks(REQUIRED[j])
    decreases |REQUIRED| - from
  {
    if from == |REQUIRED| then None
    else if tx.Lacks(REQUIRED[from]) then Some(REQUIRED[from])
    else FirstMissing(tx, from + 1)
  }

  /** What the checks that only read come to: a verdict, an exception, or neither. */
  datatype Screening = Passes | Turned(verdict: Verdict) | Raises

  /** Everything before the nonce is claimed, in order. */
  function Screen(w: World, tx: RawTx, dir: Directory, now: Instant): Screening {
    if TxIdField !in tx.blank && Exists(w.txs, tx.txId) then Turned(Duplicate)
    else if FirstMissing(tx, 0).Some? then Turned(Rejected(Missing(FirstMissing(tx, 0).value)))
    else if tx.token >= |w.bank.tokens| then Turned(Rejected(TokenNotFound))
    else
      var row := w.bank.tokens[tx.token];
      if !row.status.Active? then Turned(Rejected(TokenNotActive(row.status)))
      else if now >= row.expiresAt then Turned(Rejected(TokenExpired))
      else if tx.amount > row.amount - row.used then Turned(Rejected(InsufficientTokenLimit))
      else ScreenParties(tx, dir)
  }

  /** Each identifier is parsed just before it is looked up. */
  function ScreenParties(tx: RawTx, dir: Directory): Screening {
    if tx.payer.None? then Raises
    else if tx.payer.value !in dir.users then Turned(Rejected(PayerNotFound))
    else if tx.payee.None? then Raises
    else if tx.payee.value !in dir.users then Turned(Rejected(PayeeNotFound))
    else if tx.payerDevice.None? then Raises
    else if tx.payerDevice.value !in dir.devices then Turned(Rejected(PayerDeviceNotFound))
    else Passes
  }

  /** No verdict stands for an exception.  A stale sequence number is only noticed after
      the nonce has been used up, and so is a stored nonce whose key has lapsed, on which
      the insert raises. */
  function Process(w: World, tx: RawTx, dir: Directory, now: Instant): (World, Option<Verdict>) {
    match Screen(w, tx, dir, now)
    case Raises => (w, None)
    case Turned(verdict) => (w, Some(verdict))
    case Passes =>
      var key := (tx.payerDevice.value, tx.token);
      var claimed := w.(nonces := w.nonces + {tx.nonce});
      if tx.nonce in w.nonces then (w, Some(Rejected(ReplayDetected)))
      else if key in w.sequences && tx.sequence <= w.sequences[key] then (claimed, Some(Rejected(StaleSequence)))
      else if NonceStored(w.txs, tx.nonce) then (claimed, None)
      else (Book(w, tx), Some(Accepted))
  }

  /** The row stored for an accepted element. */
  function Stored(tx: RawTx): Transaction
    requires tx.payer.Some? && tx.payee.Some? && tx.payerDevice.Some?
  {
    Transaction(tx.txId, tx.payer.value, tx.payee.value, tx.token, tx.payerDevice.value, tx.nonce, tx.sequence,
                tx.amount)
  }

  function Book(w: World, tx: RawTx): World
    requires tx.token < |w.bank.tokens| && tx.payer.Some? && tx.payee.Some? && tx.payerDevice.Some?
  {
    var row := w.bank.tokens[tx.token];
    var device := tx.payerDevice.value;
    World(SetToken(w.bank, tx.token, row.(used := row.used + tx.amount)),
          w.txs + [Stored(tx)],
          w.nonces + {tx.nonce},
          w.sequences[(device, tx.token) := tx.sequence],
          w.spends)
  }

  /** The session of a request that raises is rolled back; the Redis keys are not. */
  function RolledBack(w: World, reached: World): World {
    w.(nonces := reached.nonces, sequences := reached.sequences)
  }

  /** What a batch leaves behind.  If it raised, `verdicts` are those of the elements
      before the one that did, which the caller never gets to see. */
  datatype BatchRun = BatchRun(world: World, verdicts: seq<Verdict>, raised: bool)

  /** The loop of sync_batch; element i is handled at instant times[i]. */
  function Batch(w: World, txs: seq<RawTx>, dir: Directory, times: seq<Instant>): BatchRun
    requires |txs| == |times|
  {
    if txs == [] then BatchRun(w, [], false)
    else
      var n := |txs| - 1;
      var before := Batch(w, txs[..n], dir, times[..n]);
      if before.raised then before
      else
        match Process(before.world, txs[n], dir, times[n])
        case (after, None) => BatchRun(RolledBack(w, after), before.verdicts, true)
        case (after, Some(verdict)) => BatchRun(after, before.verdicts + [verdict], false)
  }

  datatype Label = AcceptedLabel | RejectedLabel | DuplicateLabel

  function LabelOf(v: Verdict): Label {
    match v
    case Accepted => AcceptedLabel
    case Duplicate => DuplicateLabel
    case Rejected(_) => RejectedLabel
  }

  function Count(verdicts: seq<Verdict>, tag: Label): nat {
    if verdicts == [] then 0
    else Count(verdicts[..|verdicts| - 1], tag) + if LabelOf(verdicts[|verdicts| - 1]) == tag then 1 else 0
  }

  /** Accepted, rejected and duplicate verdicts account for the whole batch. */
  lemma {:induction false} VerdictsPartition(verdicts: seq<Verdict>)
    ensures Count(verdicts, AcceptedLabel) + Count(verdicts, RejectedLabel) + Count(verdicts, DuplicateLabel)
         == |verdicts|
  {
    if verdicts != [] {
      VerdictsPartition(verdicts[..|verdicts| - 1]);
    }
  }

  /** An element is accepted exactly when it is new, complete, within a live token's limit,
      between known parties from a known device, no replay, and next in sequence. */
  predicate Acceptable(w: World, tx: RawTx, dir: Directory, now: Instant) {
    && !Exists(w.txs, tx.txId) && tx.Complete()
    && tx.token < |w.bank.tokens|
    && w.bank.tokens[tx.token].status.Active? && now < w.bank.tokens[tx.token].expiresAt
    && tx.amount <= w.bank.tokens[tx.token].Unused()
    && tx.payer.Some? && tx.payer.value in dir.users
    && tx.payee.Some? && tx.payee.value in dir.users
    && tx.payerDevice.Some? && tx.payerDevice.value in dir.devices
    && tx.nonce !in w.nonces && !NonceStored(w.txs, tx.nonce)
    && ((tx.payerDevice.value, tx.token) in w.sequences ==>
          w.sequences[(tx.payerDevice.value, tx.token)] < tx.sequence)
  }

  /** And what is then booked is exactly this element; otherwise at most a nonce is used up. */
  lemma {:induction false} AcceptedIff(w: World, tx: RawTx, dir: Directory, now: Instant)
    ensures Process(w, tx, dir, now).1 == Some(Accepted) <==> Acceptable(w, tx, dir, now)
    ensures Acceptable(w, tx, dir, now) ==> Process(w, tx, dir, now).0 == Book(w, tx)
    ensures !Acceptable(w, tx, dir, now) ==>
              var w' := Process(w, tx, dir, now).0;
              w' == w || w' == w.(nonces := w.nonces + {tx.nonce})
  {
    assert tx.Lacks(REQUIRED[0]) <==> TxIdField in tx.blank;
  }

  /** What accepting an element writes: its row, its nonce, its sequence number, and its
      amount on the usage of its token. */
  lemma {:induction false} AcceptingWrites(w: World, tx: RawTx, dir: Directory, now: Instant)
    requires Acceptable(w, tx, dir, now)
    ensures var w' := Process(w, tx, dir, now).0;
            var key := (tx.payerDevice.value, tx.token);
            && w'.txs == w.txs + [Transaction(tx.txId, tx.payer.value, tx.payee.value, tx.token,
                                              tx.payerDevice.value, tx.nonce, tx.sequence, tx.amount)]
            && (forall nonce: Nonce :: nonce in w'.nonces <==> nonce in w.nonces || nonce == tx.nonce)
            && (forall other :: other in w'.sequences <==> other in w.sequences || other == key)
            && (forall other | other in w'.sequences ::
                  w'.sequences[other] == if other == key then tx.sequence else w.sequences[other])
            && w'.bank.balances == w.bank.balances && w'.bank.entries == w.bank.entries
            && |w'.bank.tokens| == |w.bank.tokens|
            && (forall t: TokenId | t < |w.bank.tokens| ::
                  w'.bank.tokens[t] == w.bank.tokens[t].(
                    used := w.bank.tokens[t].used + if t == tx.token then tx.amount else 0))
            && w'.spends == w.spends
  {
    AcceptedIff(w, tx, dir, now);
  }

  /** Complete, not stored yet, and with room on a live token: only the parties and the keys
      are left to look at. */
  predicate Fits(w: World, tx: RawTx, now: Instant) {
    && (forall i | 0 <= i < |w.txs| :: w.txs[i].txId != tx.txId)
    && tx.Complete()
    && tx.token < |w.bank.tokens|
    && w.bank.tokens[tx.token].status == Active
    && now < w.bank.tokens[tx.token].expiresAt
    && w.bank.tokens[tx.token].used + tx.amount <= w.bank.tokens[tx.token].amount
  }

  /** An identifier that has to be parsed does not parse: the payer's, that of the payee of a
      known payer, or that of the device between known parties. */
  predicate Unreadable(tx: RawTx, dir: Directory) {
    || tx.payer == None
    || (tx.payer.value in dir.users && tx.payee == None)
    || (tx.payer.value in dir.users && tx.payee.Some? && tx.payee.value in dir.users && tx.payerDevice == None)
  }

  predicate Known(tx: RawTx, dir: Directory) {
    && tx.payer.Some? && tx.payer.value in dir.users
    && tx.payee.Some? && tx.payee.value in dir.users
    && tx.payerDevice.Some? && tx.payerDevice.value in dir.devices
  }

  /** The nonce of a stored transaction, whose key has lapsed, comes again in sequence. */
  predicate Collides(w: World, tx: RawTx, dir: Directory) {
    && Known(tx, dir)
    && tx.nonce !in w.nonces
    && ((tx.payerDevice.value, tx.token) in w.sequences ==>
          w.sequences[(tx.payerDevice.value, tx.token)] < tx.sequence)
    && exists i :: 0 <= i < |w.txs| && w.txs[i].nonce == tx.nonce
  }

  /** When an element has no verdict but raises. */
  lemma {:induction false} RaisesIff(w: World, tx: RawTx, dir: Directory, now: Instant)
    ensures Process(w, tx, dir, now).1 == None <==>
            Fits(w, tx, now) && (Unreadable(tx, dir) || Collides(w, tx, dir))
  {
    assert tx.Lacks(REQUIRED[0]) <==> TxIdField in tx.blank;
  }

  /** An element uses up its nonce iff it gets as far as the nonce, and one that is not
      accepted writes nothing else. */
  lemma {:induction false} RefusingWrites(w: World, tx: RawTx, dir: Directory, now: Instant)
    ensures var w' := Process(w, tx, dir, now).0;
            && (forall nonce: Nonce :: nonce in w'.nonces <==>
                  nonce in w.nonces || (nonce == tx.nonce && Fits(w, tx, now) && Known(tx, dir)))
            && (!Acceptable(w, tx, dir, now) ==> w' == w.(nonces := w'.nonces))
  {
    assert tx.Lacks(REQUIRED[0]) <==> TxIdField in tx.blank;
  }

  lemma {:induction false} EveryFieldRequired(f: Field) returns (i: nat)
    ensures i < |REQUIRED| && REQUIRED[i] == f
  {
    match f
    case TxIdField => i := 0;
    case TokenIdField => i := 1;
    case PayerField => i := 2;
    case PayeeField => i := 3;
    case AmountField => i := 4;
    case NonceField => i := 5;
    case SequenceField => i := 6;
    case InitiatedAtField => i := 7;
    case PayerSignatureField => i := 8;
    case MerchantSignatureField => i := 9;
    case PayloadHashField => i := 10;
  }

  /** A zero counts as missing, and so does any of the nine texts that is empty. */
  lemma {:induction false} CompleteMeans(tx: RawTx)
    ensures tx.Complete() <==>
              && tx.amount != 0 && tx.sequence != 0
              && forall f | f in tx.blank :: f in {AmountField, SequenceField}
  {
    if tx.Complete() {
      forall f: Field ensures !tx.Lacks(f) {
        var i := EveryFieldRequired(f);
      }
      assert !tx.Lacks(AmountField) && !tx.Lacks(SequenceField);
      forall f | f in tx.blank ensures f in {AmountField, SequenceField} {
        assert !tx.Lacks(f);
      }
    } else {
      var i :| 0 <= i < |REQUIRED| && tx.Lacks(REQUIRED[i]);
    }
  }

  predicate LacksFirst(tx: RawTx, f: Field) {
    exists i ::
      0 <= i < |REQUIRED| && REQUIRED[i] == f && tx.Lacks(f) && forall j | 0 <= j < i :: !tx.Lacks(REQUIRED[j])
  }

  /** Each verdict but acceptance, and when it is given. */
  lemma {:induction false} RefusedBecause(w: World, tx: RawTx, dir: Directory, now: Instant)
    ensures var v := Process(w, tx, dir, now).1;
            var stored := TxIdField !in tx.blank && exists i :: 0 <= i < |w.txs| && w.txs[i].txId == tx.txId;
            var due := !stored && tx.Complete() && tx.token < |w.bank.tokens|;
            && (v == Some(Duplicate) <==> stored)
            && ((exists f :: v == Some(Rejected(Missing(f)))) <==> !stored && !tx.Complete())
            && (forall f | v == Some(Rejected(Missing(f))) :: LacksFirst(tx, f))
            && (v == Some(Rejected(TokenNotFound)) <==> !stored && tx.Complete() && tx.token >= |w.bank.tokens|)
            && ((exists status :: v == Some(Rejected(TokenNotActive(status)))) <==>
                  due && w.bank.tokens[tx.token].status != Active)
            && (forall status | v == Some(Rejected(TokenNotActive(status))) ::
                  tx.token < |w.bank.tokens| && status == w.bank.tokens[tx.token].status)
            && (v == Some(Rejected(TokenExpired)) <==>
                  due && w.bank.tokens[tx.token].status == Active && w.bank.tokens[tx.token].expiresAt <= now)
            && (v == Some(Rejected(InsufficientTokenLimit)) <==>
                  && due && w.bank.tokens[tx.token].status == Active && now < w.bank.tokens[tx.token].expiresAt
                  && w.bank.tokens[tx.token].amount < w.bank.tokens[tx.token].used + tx.amount)
  {
    assert tx.Lacks(REQUIRED[0]) <==> TxIdField in tx.blank;
    hide ScreenParties, NonceStored;
  }

  lemma {:induction false} RefusedBecauseOf(w: World, tx: RawTx, dir: Directory, now: Instant)
    ensures var v := Process(w, tx, dir, now).1;
            && (v == Some(Rejected(PayerNotFound)) <==>
                  Fits(w, tx, now) && tx.payer.Some? && tx.payer.value !in dir.users)
            && (v == Some(Rejected(PayeeNotFound)) <==>
                  && Fits(w, tx, now) && tx.payer.Some? && tx.payer.value in dir.users
                  && tx.payee.Some? && tx.payee.value !in dir.users)
            && (v == Some(Rejected(PayerDeviceNotFound)) <==>
                  && Fits(w, tx, now) && tx.payer.Some? && tx.payer.value in dir.users
                  && tx.payee.Some? && tx.payee.value in dir.users
                  && tx.payerDevice.Some? && tx.payerDevice.value !in dir.devices)
            && (v == Some(Rejected(ReplayDetected)) <==>
                  Fits(w, tx, now) && Known(tx, dir) && tx.nonce in w.nonces)
            && (v == Some(Rejected(StaleSequence)) <==>
                  && Fits(w, tx, now) && Known(tx, dir) && tx.nonce !in w.nonces
                  && (tx.payerDevice.value, tx.token) in w.sequences
                  && tx.sequence <= w.sequences[(tx.payerDevice.value, tx.token)])
  {
    assert tx.Lacks(REQUIRED[0]) <==> TxIdField in tx.blank;
  }

  /** The counts of the report are numbers of elements with such a verdict. */
  lemma {:induction false} AcceptedCount(verdicts: seq<Verdict>)
    ensures Count(verdicts, AcceptedLabel) == |set i | 0 <= i < |verdicts| && verdicts[i] == Accepted|
    ensures Count(verdicts, DuplicateLabel) == |set i | 0 <= i < |verdicts| && verdicts[i] == Duplicate|
  {
    if verdicts != [] {
      var n := |verdicts| - 1;
      AcceptedCount(verdicts[..n]);
      IndicesStep(verdicts, Accepted);
      IndicesStep(verdicts, Duplicate);
    }
  }

  lemma {:induction false} RejectedCount(verdicts: seq<Verdict>)
    ensures Count(verdicts, RejectedLabel) == |set i | 0 <= i < |verdicts| && verdicts[i].Rejected?|
  {
    if verdicts != [] {
      var n := |verdicts| - 1;
      RejectedCount(verdicts[..n]);
      var front := set i | 0 <= i < n && verdicts[..n][i].Rejected?;
      var all := set i | 0 <= i < |verdicts| && verdicts[i].Rejected?;
      assert all == if verdicts[n].Rejected? then front + {n} else front;
    }
  }

  lemma {:induction false} IndicesStep(verdicts: seq<Verdict>, v: Verdict)
    requires verdicts != []
    ensures var n := |verdicts| - 1;
            |set i | 0 <= i < |verdicts| && verdicts[i] == v|
            == |set i | 0 <= i < n && verdicts[..n][i] == v| + if verdicts[n] == v then 1 else 0
  {
    var n := |verdicts| - 1;
    var front := set i | 0 <= i < n && verdicts[..n][i] == v;
    var all := set i | 0 <= i < |verdicts| && verdicts[i] == v;
    assert all == if verdicts[n] == v then front + {n} else front;
  }

  // ---------------------------------------------------------------- the batch

  /** The batch, one element at a time. */
  lemma {:induction false} BatchStep(w: World, txs: seq<RawTx>, dir: Directory, times: seq<Instant>)
    requires |txs| == |times| > 0
    ensures var n := |txs| - 1;
            var before := Batch(w, txs[..n], dir, times[..n]);
            var (after, v) := Process(before.world, txs[n], dir, times[n]);
            Batch(w, txs, dir, times) ==
              if before.raised then before
              else if v.None? then BatchRun(RolledBack(w, after), before.verdicts, true)
              else BatchRun(after, before.verdicts + [v.value], false)
  {
  }

  /** Nothing comes after the element that raises. */
  lemma {:induction false} RaisedStays(w: World, txs: seq<RawTx>, dir: Directory, times: seq<Instant>, n: nat)
    requires n <= |txs| == |times| && Batch(w, txs[..n], dir, times[..n]).raised
    ensures Batch(w, txs, dir, times) == Batch(w, txs[..n], dir, times[..n])
  {
    hide Process, Batch;
    if n == |txs| {
      assert txs[..n] == txs && times[..n] == times;
    } else {
      var m := |txs| - 1;
      BatchStep(w, txs, dir, times);
      assert txs[..m][..n] == txs[..n] && times[..m][..n] == times[..n];
      RaisedStays(w, txs[..m], dir, times[..m], n);
    }
  }

  lemma {:induction false} BatchShape(w: World, txs: seq<RawTx>, dir: Directory, times: seq<Instant>)
    requires |txs| == |times|
    ensures var r := Batch(w, txs, dir, times);
            if r.raised then |r.verdicts| < |txs| else |r.verdicts| == |txs|
  {
    if txs != [] {
      BatchShape(w, txs[..|txs| - 1], dir, times[..|txs| - 1]);
    }
  }

  /** A batch that raises does so at its first element without a verdict; it leaves every
      table as it was, and every key as that element left it. */
  lemma {:induction false} RaisedAt(w: World, txs: seq<RawTx>, dir: Directory, times: seq<Instant>)
    requires |txs| == |times| && Batch(w, txs, dir, times).raised
    ensures var r := Batch(w, txs, dir, times);
            var k := |r.verdicts|;
            && k < |txs|
            && var reached := Batch(w, txs[..k], dir, times[..k]);
               && !reached.raised && reached.verdicts == r.verdicts
               && var (after, v) := Process(reached.world, txs[k], dir, times[k]);
                  v.None? && r.world == RolledBack(w, after)
  {
    hide Batch;
    BatchShape(w, txs, dir, times);
    var n := |txs| - 1;
    BatchStep(w, txs, dir, times);
    var before := Batch(w, txs[..n], dir, times[..n]);
    if before.raised {
      RaisedAt(w, txs[..n], dir, times[..n]);
      var k := |before.verdicts|;
      assert txs[..n][..k] == txs[..k] && times[..n][..k] == times[..k];
    } else {
      BatchShape(w, txs[..n], dir, times[..n]);
    }
  }

  /** A batch raises if and only if some element finds nothing but a reason to. */
  lemma {:induction false} BatchRaisesIff(w: World, txs: seq<RawTx>, dir: Directory, times: seq<Instant>)
    requires |txs| == |times|
    ensures Batch(w, txs, dir, times).raised <==>
            exists k :: 0 <= k < |txs| && BreaksAt(w, txs, dir, times, k)
  {
    hide Process, Batch, Fits, Unreadable, Collides;
    if Batch(w, txs, dir, times).raised {
      RaisedAt(w, txs, dir, times);
      var k := |Batch(w, txs, dir, times).verdicts|;
      RaisesIff(Batch(w, txs[..k], dir, times[..k]).world, txs[k], dir, times[k]);
      assert BreaksAt(w, txs, dir, times, k);
    } else if k :| 0 <= k < |txs| && BreaksAt(w, txs, dir, times, k) {
      RaisesIff(Batch(w, txs[..k], dir, times[..k]).world, txs[k], dir, times[k]);
      var head, early := txs[..k + 1], times[..k + 1];
      assert head[..k] == txs[..k] && early[..k] == times[..k];
      BatchStep(w, head, dir, early);
      RaisedStays(w, txs, dir, times, k + 1);
      assert false;
    }
  }

  /** Up to element k the batch goes through, and there it comes upon an identifier that
      does not parse or a nonce that is stored. */
  predicate BreaksAt(w: World, txs: seq<RawTx>, dir: Directory, times: seq<Instant>, k: nat)
    requires k < |txs| == |times|
  {
    var before := Batch(w, txs[..k], dir, times[..k]);
    && !before.raised
    && Fits(before.world, txs[k], times[k])
    && (Unreadable(txs[k], dir) || Collides(before.world, txs[k], dir))
  }

  /** Rows, ids and nonces are only added; a token changes in its usage alone. */
  ghost predicate Grown(w: World, w': World) {
    && w'.bank == w.bank.(tokens := w'.bank.tokens) && |w'.bank.tokens| == |w.bank.tokens|
    && (forall t | 0 <= t < |w.bank.tokens| ::
          && w'.bank.tokens[t] == w.bank.tokens[t].(used := w'.bank.tokens[t].used)
          && (!w.bank.tokens[t].status.Active? ==> w'.bank.tokens[t] == w.bank.tokens[t]))
    && w.txs <= w'.txs
    && w.nonces <= w'.nonces
    && w'.spends == w.spends
    && (forall key | key in w.sequences :: key in w'.sequences && w.sequences[key] <= w'.sequences[key])
  }

  lemma {:induction false} ProcessGrows(w: World, tx: RawTx, dir: Directory, now: Instant)
    ensures Grown(w, Process(w, tx, dir, now).0)
  {
  }

  lemma {:induction false} GrownTwice(w0: World, w1: World, w2: World)
    requires Grown(w0, w1) && Grown(w1, w2)
    ensures Grown(w0, w2)
  {
    forall t | 0 <= t < |w0.bank.tokens|
      ensures w2.bank.tokens[t] == w0.bank.tokens[t].(used := w2.bank.tokens[t].used)
      ensures !w0.bank.tokens[t].status.Active? ==> w2.bank.tokens[t] == w0.bank.tokens[t]
    {
      assert w1.bank.tokens[t] == w0.bank.tokens[t].(used := w1.bank.tokens[t].used);
    }
  }

  lemma {:induction false} BatchGrows(w: World, txs: seq<RawTx>, dir: Directory, times: seq<Instant>)
    requires |txs| == |times|
    ensures Grown(w, Batch(w, txs, dir, times).world)
  {
    if txs != [] {
      var n := |txs| - 1;
      BatchGrows(w, txs[..n], dir, times[..n]);
      var before := Batch(w, txs[..n], dir, times[..n]);
      if !before.raised {
        ProcessGrows(before.world, txs[n], dir, times[n]);
        GrownTwice(w, before.world, Process(before.world, txs[n], dir, times[n]).0);
      }
    }
  }

  // ------------------------------------------------------------- idempotence

  /** Processing `tx` at `now` answers, accepts nothing and changes nothing. */
  predicate Refused(w: World, tx: RawTx, dir: Directory, now: Instant) {
    var screening := Screen(w, tx, dir, now);
    screening.Turned? || (screening.Passes? && tx.nonce in w.nonces)
  }

  predicate Recorded(w: World, tx: RawTx) {
    TxIdField !in tx.blank && Exists(w.txs, tx.txId)
  }

  lemma {:induction false} RefusedChangesNothing(w: World, tx: RawTx, dir: Directory, now: Instant)
    requires Refused(w, tx, dir, now)
    ensures var (w', v) := Process(w, tx, dir, now);
            w' == w && v.Some? && !v.value.Accepted? && (Recorded(w, tx) ==> v.value == Duplicate)
  {
  }

  /** Whatever the verdict, the same element is refused from then on. */
  lemma {:induction false} ProcessedIsRefused(w: World, tx: RawTx, dir: Directory, now: Instant)
    requires Process(w, tx, dir, now).1.Some?
    ensures var (w', v) := Process(w, tx, dir, now);
            Refused(w', tx, dir, now) && (v.value.Accepted? || v.value.Duplicate? ==> Recorded(w', tx))
  {
    var (w', v) := Process(w, tx, dir, now);
    if v.value.Accepted? {
      assert w'.txs[|w.txs|].txId == tx.txId;
      assert !tx.Lacks(REQUIRED[0]);
    }
  }

  lemma {:induction false} RefusedLater(w: World, tx: RawTx, dir: Directory, now: Instant, later: Instant)
    requires Refused(w, tx, dir, now) && now <= later
    ensures Refused(w, tx, dir, later)
  {
  }

  lemma {:induction false} ExistsGrows(txs: seq<Transaction>, txs': seq<Transaction>, id: TxId)
    requires txs <= txs' && Exists(txs, id)
    ensures Exists(txs', id)
  {
    var i :| 0 <= i < |txs| && txs[i].txId == id;
    assert txs'[i] == txs[i];
  }

  /** Ids, nonces and, as long as nothing negative is accepted, usage only grow, and so
      does time; every reason to refuse persists. */
  lemma {:induction false} RefusalPersists(w: World, other: RawTx, tx: RawTx, dir: Directory,
          at: Instant, now: Instant, later: Instant)
    requires Refused(w, tx, dir, now) && now <= later
    requires Acceptable(w, other, dir, at) ==> 0 <= other.amount
    ensures Refused(Process(w, other, dir, at).0, tx, dir, later)
    ensures Recorded(w, tx) ==> Recorded(Process(w, other, dir, at).0, tx)
  {
    AcceptedIff(w, other, dir, at);
    var w' := Process(w, other, dir, at).0;
    if Exists(w.txs, tx.txId) {
      ExistsGrows(w.txs, w'.txs, tx.txId);
    }
  }

  lemma {:induction false} FreshTxId(txs: seq<Transaction>) returns (id: TxId)
    ensures forall i | 0 <= i < |txs| :: txs[i].txId < id
  {
    if txs == [] {
      id := 0;
    } else {
      var n := |txs| - 1;
      id := FreshTxId(txs[..n]);
      id := if txs[n].txId < id then id else txs[n].txId + 1;
      assert forall i | 0 <= i < n :: txs[..n][i] == txs[i];
    }
  }

  lemma {:induction false} FreshNonce(nonces: set<Nonce>) returns (nonce: Nonce)
    ensures forall other | other in nonces :: other < nonce
    decreases |nonces|
  {
    if nonces == {} {
      nonce := 0;
    } else {
      var one :| one in nonces;
      var rest := FreshNonce(nonces - {one});
      nonce := if one < rest then rest else one + 1;
      assert forall other | other in nonces :: other == one || other in nonces - {one};
    }
  }

  /** A negative element that is accepted makes room: one just too large for the token is
      refused before it and passes after it. */
  lemma {:induction false} NegativeMakesRoom(w: World, other: RawTx, dir: Directory, at: Instant)
    returns (tx: RawTx)
    requires Acceptable(w, other, dir, at) && other.amount < 0
    requires w.bank.tokens[other.token].used <= w.bank.tokens[other.token].amount
    ensures Refused(w, tx, dir, at) && !Refused(Process(w, other, dir, at).0, tx, dir, at)
  {
    AcceptedIff(w, other, dir, at);
    var w' := Process(w, other, dir, at).0;
    var id := FreshTxId(w'.txs);
    var nonce := FreshNonce(w'.nonces);
    tx := other.(txId := id, nonce := nonce, amount := w.bank.tokens[other.token].Unused() + 1);
    assert !Exists(w.txs, id) by {
      assert w.txs <= w'.txs;
    }
    assert forall f: Field :: tx.Lacks(f) ==> other.Lacks(f);
  }

  /** In a state whose tokens are used within their amounts, which every reachable one is:
      all refusals outlive the processing of one more element if and only if that element
      is not a negative one that will be accepted. */
  lemma {:induction false} RefusalsPersistIff(w: World, other: RawTx, dir: Directory, at: Instant)
    requires forall t | 0 <= t < |w.bank.tokens| :: w.bank.tokens[t].used <= w.bank.tokens[t].amount
    ensures (forall tx: RawTx, now: Instant, later: Instant | Refused(w, tx, dir, now) && now <= later ::
               Refused(Process(w, other, dir, at).0, tx, dir, later))
            <==> !(Acceptable(w, other, dir, at) && other.amount < 0)
  {
    if Acceptable(w, other, dir, at) && other.amount < 0 {
      var tx := NegativeMakesRoom(w, other, dir, at);
    } else {
      forall tx: RawTx, now: Instant, later: Instant | Refused(w, tx, dir, now) && now <= later
        ensures Refused(Process(w, other, dir, at).0, tx, dir, later)
      {
        RefusalPersists(w, other, tx, dir, at, now, later);
      }
    }
  }

  /** `tx` was answered with `v` at `now`, and that is the end of it. */
  predicate Handled(w: World, tx: RawTx, dir: Directory, now: Instant, v: Verdict) {
    Refused(w, tx, dir, now) && (v.Accepted? || v.Duplicate? ==> Recorded(w, tx))
  }

  /** One more element leaves everything handled so far handled. */
  lemma {:induction false} HandledGrows(w: World, txs: seq<RawTx>, dir: Directory, times: seq<Instant>,
          verdicts: seq<Verdict>, tx: RawTx, now: Instant)
    requires |txs| == |times| == |verdicts|
    requires Process(w, tx, dir, now).1.Some?
    requires Process(w, tx, dir, now).1.value.Accepted? ==> 0 <= tx.amount
    requires forall i | 0 <= i < |txs| :: Handled(w, txs[i], dir, times[i], verdicts[i])
    ensures var (w', v) := Process(w, tx, dir, now);
            && Handled(w', tx, dir, now, v.value)
            && forall i | 0 <= i < |txs| :: Handled(w', txs[i], dir, times[i], verdicts[i])
  {
    AcceptedIff(w, tx, dir, now);
    ProcessedIsRefused(w, tx, dir, now);
    forall i | 0 <= i < |txs|
      ensures Handled(Process(w, tx, dir, now).0, txs[i], dir, times[i], verdicts[i])
    {
      RefusalPersists(w, tx, txs[i], dir, now, times[i], times[i]);
    }
  }

  /** No element with a negative amount was accepted. */
  predicate NoneNegative(txs: seq<RawTx>, verdicts: seq<Verdict>)
    requires |verdicts| <= |txs|
  {
    forall i | 0 <= i < |verdicts| :: verdicts[i].Accepted? ==> 0 <= txs[i].amount
  }

  lemma {:induction false} BatchIsHandled(w: World, txs: seq<RawTx>, dir: Directory, times: seq<Instant>)
    requires |txs| == |times| && !Batch(w, txs, dir, times).raised
    requires var r := Batch(w, txs, dir, times); |r.verdicts| == |txs| ==> NoneNegative(txs, r.verdicts)
    ensures var r := Batch(w, txs, dir, times);
            && |r.verdicts| == |txs|
            && forall i | 0 <= i < |txs| :: Handled(r.world, txs[i], dir, times[i], r.verdicts[i])
  {
    hide Process, Batch, Handled;
    if txs != [] {
      var n := |txs| - 1;
      var front, early := txs[..n], times[..n];
      var before := Batch(w, front, dir, early);
      BatchStep(w, txs, dir, times);
      BatchShape(w, front, dir, early);
      var r := Batch(w, txs, dir, times);
      assert forall i | 0 <= i < n :: r.verdicts[i] == before.verdicts[i] && front[i] == txs[i];
      BatchIsHandled(w, front, dir, early);
      HandledGrows(before.world, front, dir, early, before.verdicts, txs[n], times[n]);
      forall i | 0 <= i < |txs| ensures Handled(r.world, txs[i], dir, times[i], r.verdicts[i]) {
        if i < n {
          assert Handled(r.world, front[i], dir, early[i], before.verdicts[i]);
        }
      }
    } else {
      BatchShape(w, txs, dir, times);
    }
  }

  lemma {:induction false} RefusedBatchChangesNothing(w: World, txs: seq<RawTx>, dir: Directory,
          times: seq<Instant>)
    requires |txs| == |times|
    requires forall i | 0 <= i < |txs| :: Refused(w, txs[i], dir, times[i])
    ensures var r := Batch(w, txs, dir, times);
            && r.world == w && !r.raised && |r.verdicts| == |txs|
            && forall i | 0 <= i < |txs| ::
                 !r.verdicts[i].Accepted? && (Recorded(w, txs[i]) ==> r.verdicts[i] == Duplicate)
  {
    hide Refused, Recorded, Process;
    if txs != [] {
      var n := |txs| - 1;
      BatchStep(w, txs, dir, times);
      assert forall i | 0 <= i < n :: txs[..n][i] == txs[i] && times[..n][i] == times[i];
      RefusedBatchChangesNothing(w, txs[..n], dir, times[..n]);
      RefusedChangesNothing(w, txs[n], dir, times[n]);
    }
  }

  /** Sending a batch that went through again, no element earlier than the first time,
      accepts nothing, leaves every table and key as it was, and reports every element
      that was accepted or a duplicate before as a duplicate; provided only that nothing
      negative was accepted the first time. */
  lemma {:induction false} ResyncIsIdempotent(w: World, txs: seq<RawTx>, dir: Directory,
          times: seq<Instant>, again: seq<Instant>)
    requires |txs| == |times| == |again| && forall i | 0 <= i < |txs| :: times[i] <= again[i]
    requires var r := Batch(w, txs, dir, times);
             !r.raised && (|r.verdicts| == |txs| ==> NoneNegative(txs, r.verdicts))
    ensures var r1 := Batch(w, txs, dir, times);
            var r2 := Batch(r1.world, txs, dir, again);
            && r2.world == r1.world && !r2.raised
            && |r1.verdicts| == |r2.verdicts| == |txs|
            && forall i | 0 <= i < |txs| ::
                 && !r2.verdicts[i].Accepted?
                 && (r1.verdicts[i].Accepted? || r1.verdicts[i].Duplicate? ==> r2.verdicts[i] == Duplicate)
  {
    BatchIsHandled(w, txs, dir, times);
    var r1 := Batch(w, txs, dir, times);
    forall i | 0 <= i < |txs| ensures Refused(r1.world, txs[i], dir, again[i]) {
      assert Handled(r1.world, txs[i], dir, times[i], r1.verdicts[i]);
      RefusedLater(r1.world, txs[i], dir, times[i], again[i]);
    }
    RefusedBatchChangesNothing(r1.world, txs, dir, again);
  }

  // ---------------------------------------------------------------- raising

  /** How element i of a batch came by its verdict. */
  lemma {:induction false} VerdictAt(w: World, txs: seq<RawTx>, dir: Directory, times: seq<Instant>, i: nat)
    requires |txs| == |times| && i < |Batch(w, txs, dir, times).verdicts|
    ensures i < |txs|
    ensures var before := Batch(w, txs[..i], dir, times[..i]);
            var r := Batch(w, txs, dir, times);
            && !before.raised
            && Process(before.world, txs[i], dir, times[i]).1 == Some(r.verdicts[i])
            && Process(before.world, txs[i], dir, times[i]).0.nonces <= r.world.nonces
            && (!r.raised ==> Process(before.world, txs[i], dir, times[i]).0.txs <= r.world.txs)
  {
    hide Process, Batch;
    BatchShape(w, txs, dir, times);
    var n := |txs| - 1;
    var front := Batch(w, txs[..n], dir, times[..n]);
    BatchStep(w, txs, dir, times);
    BatchShape(w, txs[..n], dir, times[..n]);
    ProcessGrows(front.world, txs[n], dir, times[n]);
    if i < |front.verdicts| {
      VerdictAt(w, txs[..n], dir, times[..n], i);
      assert txs[..n][..i] == txs[..i] && times[..n][..i] == times[..i];
    }
  }

  lemma {:induction false} BookedExists(w: World, tx: RawTx, w': World)
    requires tx.token < |w.bank.tokens| && tx.payer.Some? && tx.payee.Some? && tx.payerDevice.Some?
    requires Book(w, tx).txs <= w'.txs
    ensures Exists(w'.txs, tx.txId)
  {
    assert Book(w, tx).txs[|w.txs|].txId == tx.txId;
    ExistsGrows(Book(w, tx).txs, w'.txs, tx.txId);
  }

  lemma {:induction false} NothingAccepted(w: World, txs: seq<RawTx>, dir: Directory, times: seq<Instant>)
    requires |txs| == |times|
    requires var r := Batch(w, txs, dir, times); forall i | 0 <= i < |r.verdicts| :: !r.verdicts[i].Accepted?
    ensures RolledBack(w, Batch(w, txs, dir, times).world) == Batch(w, txs, dir, times).world
  {
    if txs != [] {
      hide Process, Acceptable, Batch;
      var n := |txs| - 1;
      var before := Batch(w, txs[..n], dir, times[..n]);
      var r := Batch(w, txs, dir, times);
      var (after, v) := Process(before.world, txs[n], dir, times[n]);
      BatchStep(w, txs, dir, times);
      assert before.verdicts <= r.verdicts;
      NothingAccepted(w, txs[..n], dir, times[..n]);
      if !before.raised && v.Some? {
        assert r.verdicts[|before.verdicts|] == v.value;
        AcceptedIff(before.world, txs[n], dir, times[n]);
      }
    }
  }

  /** An element accepted in a part of a batch that is then rolled back: a copy of it
      under a new nonce was a duplicate before the rollback and passes after it. */
  lemma {:induction false} RollbackForgets(w: World, before: World, reached: World, after: World, lost: RawTx,
          dir: Directory, at: Instant)
    returns (tx: RawTx)
    requires Grown(w, before) && Grown(w, reached)
    requires Acceptable(before, lost, dir, at) && Exists(reached.txs, lost.txId)
    ensures Refused(reached, tx, dir, at) && !Refused(RolledBack(w, after), tx, dir, at)
  {
    var nonce := FreshNonce(after.nonces);
    tx := lost.(nonce := nonce, amount := Min(-1, w.bank.tokens[lost.token].Unused()));
    assert forall f: Field :: tx.Lacks(f) ==> lost.Lacks(f);
    if Exists(w.txs, tx.txId) {
      ExistsGrows(w.txs, before.txs, tx.txId);
    }
    assert !tx.Lacks(REQUIRED[0]);
  }

  /** Element i would be accepted as things stand, and no element before it gets as far as
      claiming its nonce. */
  predicate FirstClaim(w: World, txs: seq<RawTx>, dir: Directory, times: seq<Instant>, i: nat)
    requires i < |txs| == |times|
  {
    && Acceptable(w, txs[i], dir, times[i])
    && forall j | 0 <= j < i && txs[j].nonce == txs[i].nonce :: !Screen(w, txs[j], dir, times[j]).Passes?
  }

  lemma {:induction false} SameScreen(w: World, w': World, tx: RawTx, dir: Directory, now: Instant)
    requires w' == RolledBack(w, w')
    ensures Screen(w', tx, dir, now) == Screen(w, tx, dir, now)
  {
  }

  /** Some element under this nonce gets as far as claiming it, as things stand. */
  predicate ClaimedBy(w: World, txs: seq<RawTx>, dir: Directory, times: seq<Instant>, nonce: Nonce)
    requires |txs| == |times|
  {
    exists j :: 0 <= j < |txs| && txs[j].nonce == nonce && Screen(w, txs[j], dir, times[j]).Passes?
  }

  lemma {:induction false} ClaimedByStep(w: World, txs: seq<RawTx>, dir: Directory, times: seq<Instant>, nonce: Nonce)
    requires |txs| == |times| > 0
    ensures var n := |txs| - 1;
            ClaimedBy(w, txs, dir, times, nonce) <==>
              || ClaimedBy(w, txs[..n], dir, times[..n], nonce)
              || (txs[n].nonce == nonce && Screen(w, txs[n], dir, times[n]).Passes?)
  {
    hide Screen;
    var n := |txs| - 1;
    assert forall j | 0 <= j < n :: txs[..n][j] == txs[j] && times[..n][j] == times[j];
  }

  lemma {:induction false} NonceClaimed(w: World, tx: RawTx, dir: Directory, now: Instant, nonce: Nonce)
    ensures nonce in Process(w, tx, dir, now).0.nonces <==>
              nonce in w.nonces || (tx.nonce == nonce && Screen(w, tx, dir, now).Passes?)
  {
    hide Screen;
  }

  /** As long as nothing is accepted, the nonces claimed are those of the elements that pass
      the first checks. */
  lemma {:induction false} ClaimedNonces(w: World, txs: seq<RawTx>, dir: Directory, times: seq<Instant>,
          nonce: Nonce)
    requires |txs| == |times| && !Batch(w, txs, dir, times).raised
    requires var r := Batch(w, txs, dir, times); forall i | 0 <= i < |r.verdicts| :: !r.verdicts[i].Accepted?
    ensures nonce in Batch(w, txs, dir, times).world.nonces <==>
              nonce in w.nonces || ClaimedBy(w, txs, dir, times, nonce)
  {
    if txs != [] {
      hide Batch, Process, Screen, ClaimedBy;
      var n := |txs| - 1;
      var before := Batch(w, txs[..n], dir, times[..n]);
      var r := Batch(w, txs, dir, times);
      BatchStep(w, txs, dir, times);
      assert before.verdicts <= r.verdicts;
      ClaimedNonces(w, txs[..n], dir, times[..n], nonce);
      ClaimedByStep(w, txs, dir, times, nonce);
      NothingAccepted(w, txs[..n], dir, times[..n]);
      SameScreen(w, before.world, txs[n], dir, times[n]);
      NonceClaimed(before.world, txs[n], dir, times[n], nonce);
    }
  }

  lemma {:induction false} NothingAcceptedSequences(w: World, txs: seq<RawTx>, dir: Directory, times: seq<Instant>)
    requires |txs| == |times| && !Batch(w, txs, dir, times).raised
    requires var r := Batch(w, txs, dir, times); forall i | 0 <= i < |r.verdicts| :: !r.verdicts[i].Accepted?
    ensures Batch(w, txs, dir, times).world.sequences == w.sequences
  {
    if txs != [] {
      hide Process, Batch, Acceptable;
      var n := |txs| - 1;
      var before := Batch(w, txs[..n], dir, times[..n]);
      var r := Batch(w, txs, dir, times);
      BatchStep(w, txs, dir, times);
      assert before.verdicts <= r.verdicts && r.verdicts[|before.verdicts|] in r.verdicts;
      NothingAcceptedSequences(w, txs[..n], dir, times[..n]);
      AcceptedIff(before.world, txs[n], dir, times[n]);
    }
  }

  lemma {:induction false} FirstClaimInFront(w: World, txs: seq<RawTx>, dir: Directory, times: seq<Instant>, n: nat,
          i: nat)
    requires i < n <= |txs| == |times|
    ensures FirstClaim(w, txs[..n], dir, times[..n], i) == FirstClaim(w, txs, dir, times, i)
  {
    hide Acceptable, Screen;
    assert forall j | 0 <= j <= i :: txs[..n][j] == txs[j] && times[..n][j] == times[j];
  }

  lemma {:induction false} LastAcceptedIff(w: World, txs: seq<RawTx>, dir: Directory, times: seq<Instant>)
    requires |txs| == |times| > 0 && !Batch(w, txs, dir, times).raised
    requires var before := Batch(w, txs[..|txs| - 1], dir, times[..|txs| - 1]);
             !before.raised && forall i | 0 <= i < |before.verdicts| :: !before.verdicts[i].Accepted?
    ensures var n := |txs| - 1;
            Process(Batch(w, txs[..n], dir, times[..n]).world, txs[n], dir, times[n]).1 == Some(Accepted)
            <==> FirstClaim(w, txs, dir, times, n)
  {
    hide Process, Batch, Screen;
    var n := |txs| - 1;
    var front, early := txs[..n], times[..n];
    var before := Batch(w, front, dir, early).world;
    NothingAccepted(w, front, dir, early);
    NothingAcceptedSequences(w, front, dir, early);
    ClaimedNonces(w, front, dir, early, txs[n].nonce);
    AcceptedIff(before, txs[n], dir, times[n]);
    assert forall j | 0 <= j < n :: front[j] == txs[j] && early[j] == times[j];
  }

  /** Whether a batch that goes through accepts anything can be told beforehand. */
  lemma {:induction false} NothingAcceptedIff(w: World, txs: seq<RawTx>, dir: Directory, times: seq<Instant>)
    requires |txs| == |times| && !Batch(w, txs, dir, times).raised
    ensures var r := Batch(w, txs, dir, times);
            (forall i | 0 <= i < |r.verdicts| :: !r.verdicts[i].Accepted?) <==>
            (forall i: nat | i < |txs| :: !FirstClaim(w, txs, dir, times, i))
  {
    hide Process, Batch, FirstClaim;
    if txs == [] {
      BatchShape(w, txs, dir, times);
    } else {
      var n := |txs| - 1;
      var front, early := txs[..n], times[..n];
      var before := Batch(w, front, dir, early);
      var r := Batch(w, txs, dir, times);
      BatchStep(w, txs, dir, times);
      BatchShape(w, front, dir, early);
      NothingAcceptedIff(w, front, dir, early);
      forall i: nat | i < n ensures FirstClaim(w, front, dir, early, i) == FirstClaim(w, txs, dir, times, i) {
        FirstClaimInFront(w, txs, dir, times, n, i);
      }
      assert r.verdicts[..n] == before.verdicts;
      if i :| 0 <= i < n && before.verdicts[i].Accepted? {
        assert r.verdicts[i].Accepted?;
      } else {
        LastAcceptedIff(w, txs, dir, times);
        assert r.verdicts[n].Accepted? <==> FirstClaim(w, txs, dir, times, n);
        forall i: nat | i < n ensures !r.verdicts[i].Accepted? && !FirstClaim(w, txs, dir, times, i) {
          assert r.verdicts[i] == before.verdicts[i];
          assert !FirstClaim(w, front, dir, early, i);
        }
      }
    }
  }

  /** Idempotence stops at a batch that raises: the refusals in force when it did, of
      whatever elements, survive its rollback if and only if no element before the one that
      raised is the first to claim its nonce and acceptable. */
  lemma {:induction false} RollbackKeepsRefusalsIff(w: World, txs: seq<RawTx>, dir: Directory, times: seq<Instant>)
    requires |txs| == |times| && Batch(w, txs, dir, times).raised
    ensures var k := |Batch(w, txs, dir, times).verdicts|;
            && k < |txs|
            && var reached := Batch(w, txs[..k], dir, times[..k]).world;
               (forall tx: RawTx, now: Instant | Refused(reached, tx, dir, now) ::
                  Refused(Batch(w, txs, dir, times).world, tx, dir, now))
               <==> forall i: nat | i < k :: !FirstClaim(w, txs, dir, times, i)
  {
    hide Process, Batch, Grown, Refused, FirstClaim;
    RaisedAt(w, txs, dir, times);
    var final := Batch(w, txs, dir, times);
    var k := |final.verdicts|;
    var front, early := txs[..k], times[..k];
    var reached := Batch(w, front, dir, early);
    var after := Process(reached.world, txs[k], dir, times[k]).0;
    NothingAcceptedIff(w, front, dir, early);
    forall i: nat | i < k ensures FirstClaim(w, front, dir, early, i) == FirstClaim(w, txs, dir, times, i) {
      FirstClaimInFront(w, txs, dir, times, k, i);
    }
    if i: nat :| i < |reached.verdicts| && reached.verdicts[i].Accepted? {
      var tx := AcceptedIsForgotten(w, front, dir, early, after, i);
    } else {
      NothingAccepted(w, front, dir, early);
      ProcessGrows(reached.world, txs[k], dir, times[k]);
      forall tx: RawTx, now: Instant | Refused(reached.world, tx, dir, now) ensures Refused(final.world, tx, dir, now) {
        MoreKeysRefuse(w, reached.world, after, tx, dir, now);
      }
    }
  }

  lemma {:induction false} AcceptedIsForgotten(w: World, txs: seq<RawTx>, dir: Directory, times: seq<Instant>,
          after: World, i: nat)
    returns (tx: RawTx)
    requires |txs| == |times| && !Batch(w, txs, dir, times).raised
    requires i < |Batch(w, txs, dir, times).verdicts| && Batch(w, txs, dir, times).verdicts[i].Accepted?
    ensures i < |txs|
    ensures Refused(Batch(w, txs, dir, times).world, tx, dir, times[i])
    ensures !Refused(RolledBack(w, after), tx, dir, times[i])
  {
    hide Process, Batch, Grown, Refused;
    var reached := Batch(w, txs, dir, times).world;
    VerdictAt(w, txs, dir, times, i);
    BatchGrows(w, txs[..i], dir, times[..i]);
    BatchGrows(w, txs, dir, times);
    var before := Batch(w, txs[..i], dir, times[..i]).world;
    AcceptedIff(before, txs[i], dir, times[i]);
    BookedExists(before, txs[i], reached);
    tx := RollbackForgets(w, before, reached, after, txs[i], dir, times[i]);
  }

  lemma {:induction false} MoreKeysRefuse(w: World, reached: World, after: World, tx: RawTx, dir: Directory,
          now: Instant)
    requires reached == RolledBack(w, reached) && Grown(reached, after) && Refused(reached, tx, dir, now)
    ensures Refused(RolledBack(w, after), tx, dir, now)
  {
    SameScreen(w, reached, tx, dir, now);
    SameScreen(w, RolledBack(w, after), tx, dir, now);
  }

  /** An element that was accepted in a batch that then raised is not stored, and yet its
      nonce is used up. */
  lemma {:induction false} RaisedLosesAccepted(w: World, txs: seq<RawTx>, dir: Directory, times: seq<Instant>,
          i: nat)
    requires |txs| == |times| && Batch(w, txs, dir, times).raised
    requires i < |Batch(w, txs, dir, times).verdicts| && Batch(w, txs, dir, times).verdicts[i].Accepted?
    ensures i < |txs|
    ensures var w' := Batch(w, txs, dir, times).world;
            !Exists(w'.txs, txs[i].txId) && txs[i].nonce in w'.nonces
  {
    VerdictAt(w, txs, dir, times, i);
    RaisedAt(w, txs, dir, times);
    var before := Batch(w, txs[..i], dir, times[..i]).world;
    BatchGrows(w, txs[..i], dir, times[..i]);
    AcceptedIff(before, txs[i], dir, times[i]);
    if Exists(w.txs, txs[i].txId) {
      ExistsGrows(w.txs, before.txs, txs[i].txId);
    }
  }

  lemma {:induction false} SingleBatch(w: World, tx: RawTx, dir: Directory, now: Instant)
    ensures var (after, v) := Process(w, tx, dir, now);
            Batch(w, [tx], dir, [now]) ==
              if v.None? then BatchRun(RolledBack(w, after), [], true) else BatchRun(after, [v.value], false)
  {
    assert [tx][..0] == [] && [now][..0] == [];
  }

  lemma {:induction false} PairBatch(w: World, first: RawTx, second: RawTx, dir: Directory, now: Instant)
    ensures var (w1, v1) := Process(w, first, dir, now);
            var (w2, v2) := Process(w1, second, dir, now);
            v1.Some? && v2.Some? ==>
              Batch(w, [first, second], dir, [now, now]) == BatchRun(w2, [v1.value, v2.value], false)
  {
    SingleBatch(w, first, dir, now);
    assert [first, second][..1] == [first] && [now, now][..1] == [now];
  }
}
