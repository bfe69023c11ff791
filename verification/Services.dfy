/** The services and sweep workers themselves, updating the shared tables in place.
    Each call is proved against the function that says what it does to the tables. */
module Services {
  import opened Types
  import L = Ledger
  import T = Tokens
  import S = Sync
  import System

  /** The tables behind one session, and the Redis keys sync uses. */
  class Database {
    var balances: map<UserId, Balance>
    var entries: seq<Entry>
    var tokens: seq<Token>
    var txs: seq<S.Transaction>
    var nonces: set<S.Nonce>
    var sequences: map<(DeviceId, TokenId), int>
    ghost var spends: seq<S.Spend>

    constructor ()
      ensures World() == S.EMPTY_WORLD
    {
      balances, entries, tokens := map[], [], [];
      txs, nonces, sequences, spends := [], {}, map[], [];
    }

    function Tables(): Bank
      reads this
    {
      Bank(balances, entries, tokens)
    }

    ghost function World(): S.World
      reads this
    {
      S.World(Tables(), txs, nonces, sequences, spends)
    }
  }

  class LedgerService {
    const db: Database

    constructor (db: Database)
      ensures this.db == db
    {
      this.db := db;
    }

    method GetOrCreateBalance(u: UserId) returns (row: Balance)
      modifies db
      ensures row == Row(old(db.Tables()), u)
      ensures db.World() == old(db.World()).(bank := L.Opened(old(db.Tables()), u))
    {
      if u !in db.balances {
        db.balances := db.balances[u := Balance(0, 0)];
      }
      row := db.balances[u];
      assert db.balances == old(db.balances)[u := row];
    }

    method Credit(u: UserId, amount: int, reference: Reference) returns (error: Option<Error>)
      modifies db
      ensures var r := L.Credit(old(db.Tables()), u, amount, reference);
              error == r.error && db.World() == old(db.World()).(bank := r.bank)
    {
      if amount <= 0 {
        return Some(Validation);
      }
      var row := GetOrCreateBalance(u);
      row := row.(available := row.available + amount);
      db.balances := db.balances[u := row];
      db.entries := db.entries + [Entry(u, CreditEntry, amount, reference, row.available)];
      assert db.balances == old(db.balances)[u := row];
      return None;
    }

    method Debit(u: UserId, amount: int, reference: Reference, overdraft: bool) returns (error: Option<Error>)
      modifies db
      ensures var r := L.Debit(old(db.Tables()), u, amount, reference, overdraft);
              error == r.error && db.World() == old(db.World()).(bank := r.bank)
    {
      if amount <= 0 {
        return Some(Validation);
      }
      var row := GetOrCreateBalance(u);
      if !overdraft && row.available < amount {
        return Some(InsufficientFunds(amount, row.available));
      }
      row := row.(available := row.available - amount);
      db.balances := db.balances[u := row];
      db.entries := db.entries + [Entry(u, DebitEntry, amount, reference, row.available)];
      assert db.balances == old(db.balances)[u := row];
      return None;
    }

    method Transfer(payer: UserId, payee: UserId, amount: int, reference: Reference) returns (error: Option<Error>)
      modifies db
      ensures var r := L.Transfer(old(db.Tables()), payer, payee, amount, reference);
              error == r.error && db.World() == old(db.World()).(bank := r.bank)
    {
      if amount <= 0 {
        return Some(Validation);
      }
      error := Debit(payer, amount, reference, false);
      if error.None? {
        error := Credit(payee, amount, reference);
      }
    }

    method LockForOfflineToken(u: UserId, amount: int) returns (error: Option<Error>)
      modifies db
      ensures var r := L.Lock(old(db.Tables()), u, amount);
              error == r.error && db.World() == old(db.World()).(bank := r.bank)
    {
      if amount <= 0 {
        return Some(Validation);
      }
      var row := GetOrCreateBalance(u);
      if row.available < amount {
        return Some(InsufficientFunds(amount, row.available));
      }
      row := Balance(row.available - amount, row.locked + amount);
      db.balances := db.balances[u := row];
      db.entries := db.entries + [Entry(u, DebitEntry, amount, Issue, row.available)];
      assert db.balances == old(db.balances)[u := row];
      return None;
    }

    method UnlockAndRefund(u: UserId, amount: int, t: TokenId)
      modifies db
      ensures db.World() == old(db.World()).(bank := L.Unlock(old(db.Tables()), u, amount, t))
    {
      var row := GetOrCreateBalance(u);
      if amount <= 0 {
        return;
      }
      var refund := if amount < row.locked then amount else row.locked;
      row := row.(locked := row.locked - refund);
      row := row.(available := row.available + refund);
      db.balances := db.balances[u := row];
      db.entries := db.entries + [Entry(u, CreditEntry, refund, Refund(t), row.available)];
      assert db.balances == old(db.balances)[u := row];
    }

    method SumEntries(u: UserId, kind: EntryType) returns (total: int)
      ensures total == L.SumOf(db.entries, u, kind)
    {
      total := 0;
      for i := 0 to |db.entries|
        invariant total == L.SumOf(db.entries[..i], u, kind)
      {
        assert db.entries[..i + 1][..i] == db.entries[..i];
        if db.entries[i].user == u && db.entries[i].kind == kind {
          total := total + db.entries[i].amount;
        }
      }
      assert db.entries[..|db.entries|] == db.entries;
    }

    method VerifyBalanceIntegrity(u: UserId) returns (ok: bool)
      modifies db
      ensures ok == L.Reconciles(old(db.Tables()), u)
      ensures db.World() == old(db.World()).(bank := L.Opened(old(db.Tables()), u))
    {
      var row := GetOrCreateBalance(u);
      var credits := SumEntries(u, CreditEntry);
      var debits := SumEntries(u, DebitEntry);
      ok := credits - debits == row.available + row.locked;
    }
  }

  class TokenService {
    const db: Database
    const ledger: LedgerService

    constructor (db: Database)
      ensures this.db == db && this.ledger.db == db
    {
      this.db := db;
      this.ledger := new LedgerService(db);
    }

    method ProvisionToken(u: UserId, requested: int, clearance: T.Clearance, now: Instant)
      returns (error: Option<Error>)
      requires ledger.db == db
      modifies db
      ensures var r := T.Provision(old(db.Tables()), u, requested, clearance, now);
              error == r.error && db.World() == old(db.World()).(bank := r.bank)
    {
      if clearance.Barred? {
        return Some(clearance.error);
      }
      if clearance.maxToken == 0 {
        return Some(Validation);
      }
      var limit := if requested < clearance.maxToken then requested else clearance.maxToken;
      error := ledger.LockForOfflineToken(u, limit);
      if error.Some? {
        return Some(Validation);
      }
      var cutoff := now + T.SPEND_SECONDS;
      var expiresAt := now + clearance.ttlHours * 3600;
      db.tokens := db.tokens + [Token(u, limit, 0, Active, cutoff, expiresAt)];
    }

    method RecordSpend(t: TokenId, amount: int, now: Instant) returns (error: Option<Error>)
      modifies db
      ensures error == T.RecordSpend(old(db.Tables()), t, amount, now).error
      ensures db.World() == System.SpendStep(old(db.World()), t, amount, now)
    {
      if t >= |db.tokens| {
        return Some(NotFound);
      }
      if !db.tokens[t].status.Active? {
        return Some(Validation);
      }
      if now > db.tokens[t].cutoff {
        db.tokens := db.tokens[t := db.tokens[t].(status := SpendLocked)];
        return Some(Validation);
      }
      var used := db.tokens[t].used + amount;
      if used > db.tokens[t].amount {
        return Some(Validation);
      }
      db.tokens := db.tokens[t := db.tokens[t].(used := used)];
      if used >= db.tokens[t].amount {
        db.tokens := db.tokens[t := db.tokens[t].(status := Exhausted)];
      }
      db.spends := db.spends + [S.Spend(t, amount)];
      return None;
    }

    method RevokeToken(t: TokenId) returns (error: Option<Error>)
      requires ledger.db == db
      modifies db
      ensures var r := T.Revoke(old(db.Tables()), t);
              error == r.error && db.World() == old(db.World()).(bank := r.bank)
    {
      if t >= |db.tokens| {
        return Some(NotFound);
      }
      if db.tokens[t].Closed() {
        return None;
      }
      var unused := db.tokens[t].amount - db.tokens[t].used;
      if unused > 0 {
        ledger.UnlockAndRefund(db.tokens[t].user, unused, t);
      }
      db.tokens := db.tokens[t := db.tokens[t].(status := Revoked)];
      return None;
    }
  }

  /** The two sweeps and the manual refund. */
  class TokenWorkers {
    const db: Database
    const ledger: LedgerService

    constructor (db: Database)
      ensures this.db == db && this.ledger.db == db
    {
      this.db := db;
      this.ledger := new LedgerService(db);
    }

    method SelectDue(sweep: T.Sweep, now: Instant) returns (rows: seq<TokenId>)
      ensures T.Selects(sweep, rows, db.tokens, now)
    {
      rows := [];
      for t := 0 to |db.tokens|
        invariant forall i | 0 <= i < |rows| :: rows[i] < t
        invariant forall i, j | 0 <= i < j < |rows| :: rows[i] != rows[j]
        invariant forall s: TokenId | s < t :: s in rows <==> T.Due(sweep, db.tokens[s], now)
      {
        if T.Due(sweep, db.tokens[t], now) {
          rows := rows + [t];
        }
      }
    }

    method ExpireTokens(now: Instant) returns (processed: nat, refundedTotal: int, ghost rows: seq<TokenId>)
      requires ledger.db == db
      modifies db
      ensures T.Selects(T.ExpirySweep, rows, old(db.tokens), now)
      ensures db.World() == old(db.World()).(bank := T.ExpireRows(old(db.Tables()), rows))
      ensures processed == |rows| && refundedTotal == T.ReportedRefund(old(db.tokens), rows)
    {
      var due := SelectDue(T.ExpirySweep, now);
      rows := due;
      processed, refundedTotal := 0, 0;
      for i := 0 to |due|
        invariant processed == i
        invariant |db.tokens| == |old(db.tokens)|
        invariant db.World() == old(db.World()).(bank := T.ExpireRows(old(db.Tables()), due[..i]))
        invariant forall j | i <= j < |due| :: db.tokens[due[j]] == old(db.tokens)[due[j]]
        invariant refundedTotal == T.ReportedRefund(old(db.tokens), due[..i])
      {
        assert due[..i + 1][..i] == due[..i];
        var t := due[i];
        var refund := db.tokens[t].amount - db.tokens[t].used;
        if refund > 0 {
          ledger.UnlockAndRefund(db.tokens[t].user, refund, t);
          refundedTotal := refundedTotal + refund;
        }
        db.tokens := db.tokens[t := db.tokens[t].(status := Expired)];
        processed := processed + 1;
      }
      assert due[..|due|] == due;
    }

    method RefundSpecificToken(t: TokenId) returns (error: Option<Error>)
      requires ledger.db == db
      modifies db
      ensures var r := T.RefundSpecific(old(db.Tables()), t);
              error == r.error && db.World() == old(db.World()).(bank := r.bank)
    {
      if t >= |db.tokens| {
        return Some(NotFound);
      }
      if db.tokens[t].status.Expired? {
        return None;
      }
      var refund := db.tokens[t].amount - db.tokens[t].used;
      if refund > 0 {
        ledger.UnlockAndRefund(db.tokens[t].user, refund, t);
      }
      db.tokens := db.tokens[t := db.tokens[t].(status := Expired)];
      return None;
    }

    method ApplySpendCutoffs(now: Instant) returns (processed: nat, ghost rows: seq<TokenId>)
      modifies db
      ensures T.Selects(T.CutoffSweep, rows, old(db.tokens), now)
      ensures db.World() == old(db.World()).(bank := T.CutoffRows(old(db.Tables()), rows))
      ensures processed == |rows|
    {
      var due := SelectDue(T.CutoffSweep, now);
      rows := due;
      processed := 0;
      for i := 0 to |due|
        invariant processed == i
        invariant |db.tokens| == |old(db.tokens)|
        invariant db.World() == old(db.World()).(bank := T.CutoffRows(old(db.Tables()), due[..i]))
      {
        assert due[..i + 1][..i] == due[..i];
        db.tokens := db.tokens[due[i] := db.tokens[due[i]].(status := SpendLocked)];
        processed := processed + 1;
      }
      assert due[..|due|] == due;
    }
  }

  datatype SyncReport = SyncReport(processed: nat, accepted: nat, rejected: nat, results: seq<S.Verdict>)

  class TransactionService {
    const db: Database
    const dir: S.Directory

    constructor (db: Database, dir: S.Directory)
      ensures this.db == db && this.dir == dir
    {
      this.db, this.dir := db, dir;
    }

    method ExistsByTxId(id: S.TxId) returns (found: bool)
      ensures found == S.Exists(db.txs, id)
    {
      for i := 0 to |db.txs|
        invariant forall j | 0 <= j < i :: db.txs[j].txId != id
      {
        if db.txs[i].txId == id {
          return true;
        }
      }
      return false;
    }

    method CheckAndStoreNonce(nonce: S.Nonce) returns (isNew: bool)
      modifies db
      ensures isNew == (nonce !in old(db.nonces))
      ensures db.World() == old(db.World()).(nonces := old(db.nonces) + {nonce})
    {
      isNew := nonce !in db.nonces;
      db.nonces := db.nonces + {nonce};
    }

    /** The checks of _process_single_transaction that only read, in order. */
    method Screen(tx: S.RawTx, now: Instant) returns (screening: S.Screening)
      ensures screening == S.Screen(db.World(), tx, dir, now)
    {
      if S.TxIdField !in tx.blank {
        var found := ExistsByTxId(tx.txId);
        if found {
          return S.Turned(S.Duplicate);
        }
      }
      var missing := S.FirstMissing(tx, 0);
      if missing.Some? {
        return S.Turned(S.Rejected(S.Missing(missing.value)));
      }
      if tx.token >= |db.tokens| {
        return S.Turned(S.Rejected(S.TokenNotFound));
      }
      var token := db.tokens[tx.token];
      if !token.status.Active? {
        return S.Turned(S.Rejected(S.TokenNotActive(token.status)));
      }
      if now >= token.expiresAt {
        return S.Turned(S.Rejected(S.TokenExpired));
      }
      if tx.amount > token.amount - token.used {
        return S.Turned(S.Rejected(S.InsufficientTokenLimit));
      }
      if tx.payer.None? {
        return S.Raises;
      }
      if tx.payer.value !in dir.users {
        return S.Turned(S.Rejected(S.PayerNotFound));
      }
      if tx.payee.None? {
        return S.Raises;
      }
      if tx.payee.value !in dir.users {
        return S.Turned(S.Rejected(S.PayeeNotFound));
      }
      if tx.payerDevice.None? {
        return S.Raises;
      }
      if tx.payerDevice.value !in dir.devices {
        return S.Turned(S.Rejected(S.PayerDeviceNotFound));
      }
      return S.Passes;
    }

    /** No verdict stands for an exception. */
    method ProcessSingleTransaction(tx: S.RawTx, now: Instant) returns (verdict: Option<S.Verdict>)
      modifies db
      ensures (db.World(), verdict) == S.Process(old(db.World()), tx, dir, now)
    {
      hide S.Exists, S.FirstMissing, S.NonceStored;
      var screening := Screen(tx, now);
      if screening.Raises? {
        return None;
      }
      if screening.Turned? {
        return Some(screening.verdict);
      }
      var isNew := CheckAndStoreNonce(tx.nonce);
      if !isNew {
        assert db.nonces == old(db.nonces);
        return Some(S.Rejected(S.ReplayDetected));
      }
      var payerDevice := tx.payerDevice.value;
      var key := (payerDevice, tx.token);
      if key in db.sequences && tx.sequence <= db.sequences[key] {
        return Some(S.Rejected(S.StaleSequence));
      }
      if S.NonceStored(db.txs, tx.nonce) {
        // The unique index on the nonce makes the insert raise.
        return None;
      }
      var token := db.tokens[tx.token];
      var stored := S.Transaction(tx.txId, tx.payer.value, tx.payee.value, tx.token, payerDevice, tx.nonce,
                                  tx.sequence, tx.amount);
      db.txs := db.txs + [stored];
      db.sequences := db.sequences[key := tx.sequence];
      db.tokens := db.tokens[tx.token := token.(used := token.used + tx.amount)];
      return Some(S.Accepted);
    }

    /** The loop of sync_batch, up to the first element that raises. */
    method ProcessEach(batch: seq<S.RawTx>, times: seq<Instant>) returns (results: seq<S.Verdict>, raised: bool)
      requires |batch| == |times|
      modifies db
      ensures |results| <= |batch| && (raised <==> |results| < |batch|)
      ensures S.Batch(old(db.World()), batch, dir, times) ==
              S.BatchRun(if raised then S.RolledBack(old(db.World()), db.World()) else db.World(), results, raised)
    {
      results := [];
      for i := 0 to |batch|
        invariant S.Batch(old(db.World()), batch[..i], dir, times[..i]) == S.BatchRun(db.World(), results, false)
        invariant |results| == i
      {
        hide S.Process;
        assert batch[..i + 1][..i] == batch[..i] && times[..i + 1][..i] == times[..i];
        S.BatchStep(old(db.World()), batch[..i + 1], dir, times[..i + 1]);
        var result := ProcessSingleTransaction(batch[i], times[i]);
        if result.None? {
          S.RaisedStays(old(db.World()), batch, dir, times, i + 1);
          return results, true;
        }
        results := results + [result.value];
      }
      assert batch[..|batch|] == batch && times[..|batch|] == times;
      return results, false;
    }

    /** Element i of the batch is handled at instant times[i].  An exception in one of them
        ends the request, whose session is rolled back. */
    method SyncBatch(batch: seq<S.RawTx>, device: DeviceId, times: seq<Instant>)
      returns (error: Option<Error>, report: SyncReport)
      requires |batch| == |times|
      modifies db
      ensures var run := S.Batch(old(db.World()), batch, dir, times);
              && error == (if |batch| > S.MAX_BATCH then Some(BatchLimitExceeded)
                           else if device !in dir.devices then Some(NotFound)
                           else if run.raised then Some(Unhandled) else None)
              && db.World() == (if |batch| > S.MAX_BATCH || device !in dir.devices then old(db.World()) else run.world)
              && (error.None? ==>
                    && report.results == run.verdicts
                    && report.processed == |batch| == |report.results|
                    && report.accepted == |set i | 0 <= i < |batch| && report.results[i] == S.Accepted|
                    && report.rejected == |set i | 0 <= i < |batch| && report.results[i].Rejected?|
                    && report.accepted + report.rejected
                       + |set i | 0 <= i < |batch| && report.results[i] == S.Duplicate| == |batch|)
    {
      report := SyncReport(0, 0, 0, []);
      if |batch| > S.MAX_BATCH {
        return Some(BatchLimitExceeded), report;
      }
      if device !in dir.devices {
        return Some(NotFound), report;
      }
      var balances, entries, tokens, txs := db.balances, db.entries, db.tokens, db.txs;
      var results, raised := ProcessEach(batch, times);
      if raised {
        db.balances, db.entries, db.tokens, db.txs := balances, entries, tokens, txs;
        db.spends := old(db.spends);
        return Some(Unhandled), report;
      }
      S.VerdictsPartition(results);
      S.AcceptedCount(results);
      S.RejectedCount(results);
      report := SyncReport(|batch|, S.Count(results, S.AcceptedLabel), S.Count(results, S.RejectedLabel), results);
      return None, report;
    }
  }
}
