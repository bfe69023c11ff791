# OffiMesh money core: a verified model

OffiMesh lets a customer spend while offline: money is locked behind a token, spent
against it, synced in batches, settled with the merchant's bank, and what is left is
handed back when the token expires or is revoked.  This project models that core in
Dafny 4.11 and proves what has to hold between its tables in every run.

Run `dafny verify dfyconfig.toml` in this directory.

## Layout

| file | what it models |
|---|---|
| `Types.dfy`, `Sums.dfy` | the rows of `ledger_balances`, `ledger_entries` and `offline_tokens`, and sums over them |
| `Ledger.dfy`, `Tokens.dfy` | what each ledger and token operation does to those tables |
| `Coupling.dfy`, `Sweeps.dfy` | the invariant tying the three tables together; the periodic sweeps; the integrity check |
| `Sync.dfy` | batch sync with its nonce and sequence keys |
| `System.dfy` | all of the above as one machine, and what holds in every run of it |
| `Services.dfy` | the services and sweep workers as classes updating shared tables in place |
| `Breaker.dfy`, `Requests.dfy` | the circuit breaker and the retrying request loop |
| `RedisCounter.dfy` | the WATCH/MULTI spending counter, interleaved at every Redis command |
| `Settlement.dfy` | settlement, its three workers, the webhooks, and status copying |
| `Interleaving.dfy`, `Locking.dfy` | two or more sessions changing one balance row at the same time |
| `Coverage.dfy` | sync, tokens, ledger and settlement together: what is paid out against what is locked |
| `Witnesses.dfy` | runs from empty tables to inputs at which an expected property fails |
| `Reconciliation.dfy` | the nightly keyed diff |
| `Fraud.dfy` | checkpoint scores, online blacklisting, the blacklist scan |

Each state-changing method is proved equal to a function on values (`Ledger.Credit`,
`Sync.Process`, `Settlement.Process` and so on); the theorems are about those functions
and about runs of them.

## Reading the model

- Amounts are unbounded integers (the columns are 64-bit).  Instants are integer seconds,
  for the breaker reals.  `is_expired` is read as `now >= expires_at`.
- A token, whose row carries both an `id` and a `token_id`, is known by its position in a
  table that only grows.  Rows are never deleted in the source either.
- A query without ORDER BY may return its rows in any order; the sweep theorems hold for
  every order.
- The gates in front of provisioning (identity, device trust, fraud) are one input,
  `Clearance`.  Users and devices are read-only sets.
- An element of a batch that raises ends the request: its session is rolled back
  (app/core/database.py:42-53), the Redis keys written on the way stay.
- The advisory lock, the users table and what becomes of a transfer are inputs of a
  settlement attempt; the outcomes and times of sends are inputs of a request.
- The provider makes one transfer for each reference it is sent and answers a repeat with
  that one (app/integrations/nomba/transfers.py:108-109).  Its answer can come before it has
  executed the transfer, or be lost.  The statuses it reports are upper-cased on parsing
  (app/integrations/nomba/types.py:183-187), so a copied one is never one of the service's own.
- The tables are those the migration creates: nonces of stored transactions are unique,
  identifiers of transfers are not.
- Redis keys may lapse at any moment between operations, rather than after 48 hours.
- `World.spends`, `Books.made`, `Books.pending`, `CircuitBreaker.log` and the `device` of a
  transaction row are history that no table holds; they are there so that properties can
  speak of them.
- Sessions are serial, except in `Interleaving.dfy` and `RedisCounter.dfy`.
- Three kinds of runs: in a `PosedRun` callers do as they please; in a `CarefulRun` they
  neither take usage below zero nor refund a revoked token again; in a `LegalRun` they do not
  expire unspent tokens in bulk either.  `System.LegalIsExact` shows that `System.Legal` bars
  just the steps that break the tables apart.

## Where the code and its own account of itself differ

- `lock_for_offline_token` writes a debit entry, so entries add up to the available
  balance.  `verify_balance_integrity` compares them with available plus locked and hence
  fails for every user with anything locked (`Sweeps.IntegrityCheckMeaning`).
- Sync books usage on the token but not in the ledger: what was spent stays in `locked`,
  also after the token is closed (`Coupling.LockedCovers`).
- `refund_specific_token` pays a revoked token out again (`Coupling.RefundSpecificKeepsIff`),
  and `TokenRepository.expire_tokens` expires without refunding (`Sweeps.BulkExpireKeepsIff`).
- Sync and `record_spend` do not look at the sign of an amount (`Sync.RefusalsPersistIff`,
  `System.ProcessKeepsIff`, `Coupling.RecordSpendKeepsIff`, `Witnesses.NegativeUncoversPayout`);
  the amount bounds of app/schemas/transaction.py are never applied to the raw elements of a
  batch.
- The payer device is optional in sync, but its default is a UUID object where the text of
  one is parsed, so an element without it raises and undoes the batch; so does any party
  that does not parse.  Elements accepted before it are lost: their nonces stay used up
  (`System.RaisedIsLost`, `Witnesses.RaisedBatchIsNotIdempotent`).
- The token row is created without the `token_id` its table requires
  (app/services/token_service.py:163-174, app/models/offline_token.py:31-36), so the insert
  would fail as written; the model takes it to succeed.
- `record_spend` ignores the expiry clock, which for software-backed devices runs out
  before the spend cutoff (`Tokens.ValidateAgainstRecord`).
- The retry worker for failed settlements can never settle one (`Settlement.RetryNeverSettles`).
- A transfer that the provider has only accepted counts as paid: the status in its answer is
  never looked at (`Settlement.ProcessKeepsPaidIff`, `Settlement.SettledUnpaid`).
- Copying a provider status onto a verified transaction takes it out of the workers' reach
  (`Settlement.CopyStrandsIff`).
- app/models/settlement.py declares `nomba_transfer_id` unique, the migration does not
  (alembic/versions/2026_07_06_0000-0000_initial.py:110-122), and a webhook without an
  identifier writes an empty one (`Settlement.TakeKeepsIdsIff`, `Settlement.EmptyIdsCollide`).
- The reconciliation worker reads `tx.reference`, which the remote rows do not have
  (app/integrations/nomba/types.py:170-181), so as written it raises on the first of them
  (`Reconciliation.RunReconciliation`); `Reconciliation.Diff` is what its loops would do with
  `merchant_tx_ref`.
- The ledger reads balance rows without locking them, so interleaved sessions can overwrite
  each other's changes (`Interleaving.AuditedIffNeverStale`, `Interleaving.BothDebitsGranted`).
- A blocked provisioning attempt raises, so the signals it recorded and any blacklisting are
  rolled back with its session (`Fraud.BlockedLeaveNoTrace`).
- No response is ever retried, whatever `retryable_status_codes` lists; a request that is
  not idempotent is still sent twice (`Requests.Plays`).
- A half-open breaker admits four requests, not three.  If none of them succeeds and their
  failures do not add up to the threshold within the window, for instance because they were
  never answered or because the failures that opened the breaker no longer count, it is shut
  for good (`Breaker.EpisodeShutsForGoodIff`, `Breaker.FailedProbesShutForGood`).

## Model

| member | source | states |
|---|---|---|
| Services.LedgerService.GetOrCreateBalance | app/services/ledger_service.py:32-48 | an absent row is created with zeroes, nothing else changes |
| Services.LedgerService.Credit | app/services/ledger_service.py:50-97 | positive amounts raise the available balance and append an entry with the new balance; others are refused |
| Services.LedgerService.Debit | app/services/ledger_service.py:99-153 | the same downwards, refusing an overdraft that is not allowed |
| Services.LedgerService.Transfer | app/services/ledger_service.py:155-204 | debit then credit, or the debit's refusal alone |
| Services.LedgerService.LockForOfflineToken | app/services/ledger_service.py:206-257 | moves available to locked with a debit entry, refused without funds |
| Services.LedgerService.UnlockAndRefund | app/services/ledger_service.py:259-305 | moves locked back to available, clamped to what is locked, with a credit entry of the clamped amount |
| Services.LedgerService.VerifyBalanceIntegrity | app/services/ledger_service.py:316-356 | true iff credits less debits equal available plus locked |
| Services.TokenService.ProvisionToken | app/services/token_service.py:126-215 | caps at the device limit, locks, then creates an active token with both clocks; no token without the lock |
| Services.TokenService.RecordSpend | app/services/token_service.py:255-302 | books a spend on an active token within cutoff and amount, exhausting it when full; an attempt past the cutoff locks it |
| Services.TokenService.RevokeToken | app/services/token_service.py:304-346 | refunds the unspent part once and revokes; closed tokens are left alone |
| Services.TokenWorkers.SelectDue | app/workers/token_expiry_worker.py:36-43 | the query returns each due row exactly once |
| Services.TokenWorkers.ExpireTokens | app/workers/token_expiry_worker.py:23-101 | closes every due token, and reports the number processed and the sum of unspent amounts |
| Services.TokenWorkers.RefundSpecificToken | app/workers/token_expiry_worker.py:110-164 | refunds and expires anything not already expired |
| Services.TokenWorkers.ApplySpendCutoffs | app/workers/token_cutoff_worker.py:22-85 | spend-locks every active token past its cutoff and nothing else |
| Services.TransactionService.ExistsByTxId | app/repositories/transaction_repository.py:39-44 | true iff a transaction with this id is stored |
| Services.TransactionService.CheckAndStoreNonce | app/core/redis.py:87-98 | true exactly for a nonce that has no key, which it then gets |
| Services.TransactionService.ProcessSingleTransaction | app/services/transaction_service.py:124-252 | the ordered checks and, if all pass, the four writes; raises on a party or payer device that does not parse and on a stored nonce whose key has lapsed |
| Services.TransactionService.SyncBatch | app/services/transaction_service.py:43-122 | the elements in order, one verdict each; accepted, rejected and duplicates add up to the batch; if one raises, all tables are back as they were and the keys are not |
| Ledger.OpenedDoes | app/services/ledger_service.py:32-48 | the row is there afterwards, and every balance and entry reads as before |
| Ledger.CreditDoes | app/services/ledger_service.py:50-97 | field by field: a positive amount raises the user's available balance and writes one credit entry with the new balance, any other changes nothing |
| Ledger.DebitDoes | app/services/ledger_service.py:99-153 | the same of a debit, and which amounts are refused with which figures |
| Ledger.LockDoes | app/services/ledger_service.py:206-257 | what leaves available is added to locked, with one debit entry; refusals leave every balance as it reads |
| Ledger.UnlockDoes | app/services/ledger_service.py:259-305 | the lesser of the amount and the locked balance goes back, with one credit entry of just that |
| Tokens.ProvisionDoes | app/services/token_service.py:126-180 | a token is made out for the lesser of request and device limit iff that is positive and available; it can be spent for 48 hours and expires after as many hours as the device allows |
| Tokens.RecordSpendDoes | app/services/token_service.py:255-302 | a spend is booked iff the token is active, not past cutoff and has room; it exhausts the token iff it fills it; a refused one only locks an active token past its cutoff |
| Coupling.PostKeepsAudit | app/services/ledger_service.py:71-85 | a movement keeps every entry's balance equal to the signed sum up to it |
| Coupling.TransferConserves | app/services/ledger_service.py:155-204 | goes through iff the payer has the money, takes from the payer what it gives the payee, and conserves the total; one to oneself moves nothing |
| Coupling.TransferKeeps | app/services/ledger_service.py:155-204 | a transfer keeps balances, entries and tokens coupled |
| Coupling.ProvisionKeeps | app/services/token_service.py:126-180 | a new token is covered by what was locked for it and within the device limit |
| Coupling.LiveUpdateKeeps | app/repositories/token_repository.py:74-80 | using a live token moves nothing between available and locked |
| Coupling.RecordSpendKeepsIff | app/services/token_service.py:255-302 | keeps the tables coupled iff it is not a spend on an active token within cutoff that takes its usage below zero |
| Coupling.ClampIdle | app/services/ledger_service.py:276-279 | the clamp never binds for a token that is not closed |
| Coupling.CloseKeeps | app/workers/token_expiry_worker.py:52-69 | refunding and closing a live token keeps the tables coupled and the money total |
| Coupling.RevokeKeeps | app/services/token_service.py:304-334 | so does revoking, whatever the token's state |
| Coupling.RevokeDoes | app/services/token_service.py:304-346 | a closed token is left alone; any other ends revoked and, in backed tables, its owner gets the unspent part from locked to available, with one entry; nobody else is touched |
| Coupling.RefundSpecificDoes | app/workers/token_expiry_worker.py:110-164 | an expired token is left alone; any other ends expired and its owner gets the unspent part, of a revoked one what is locked at most |
| Coupling.RefundSpecificKeepsIff | app/workers/token_expiry_worker.py:130-147 | the manual refund does so iff it is not given a revoked, partly unspent token whose owner has something locked |
| Sweeps.ExpireRowsPaysReported | app/workers/token_expiry_worker.py:47-99 | the reported total is the rise of all available and the fall of all locked balances |
| Sweeps.ExpireRowsPaysOwner | app/workers/token_expiry_worker.py:52-69 | each owner gets exactly what their swept tokens left unspent |
| Sweeps.ExpirySweepDoes | app/workers/token_expiry_worker.py:36-69 | a token ends expired iff it was active or spend-locked and past its expiry, and otherwise stays as it is; a user without such a token keeps the balance |
| Sweeps.CutoffSweepDoes | app/workers/token_cutoff_worker.py:38-56 | a token ends spend-locked iff it was active and past its cutoff, and otherwise stays as it is; no balance and no entry changes |
| Sweeps.CutoffKeeps | app/workers/token_cutoff_worker.py:38-56 | the cutoff sweep keeps the tables coupled |
| Sweeps.SweepsCommute | app/workers/token_cutoff_worker.py:38-78 | at one instant the two sweeps give the same statuses, balances and entries in either order |
| Sweeps.SweepsSettle | app/workers/token_expiry_worker.py:36-94 | afterwards nothing live is past expiry, nothing active past cutoff, and a second run of either finds nothing |
| Sweeps.BulkExpireDoes | app/repositories/token_repository.py:92-100 | expires exactly the active tokens past their expiry and refunds nobody |
| Sweeps.BulkExpireKeepsIff | app/repositories/token_repository.py:92-100 | expiring without refund keeps the tables coupled iff every row it hits is fully spent |
| Sweeps.IntegrityCheckMeaning | app/services/ledger_service.py:316-356 | the check passes iff nothing is locked; with coupled tables, iff all of the user's tokens are closed and unspent |
| Tokens.CanSpendMeans | app/services/token_service.py:410-414 | can_spend is true iff record_spend would take some positive amount |
| Tokens.ValidateAgainstRecord | app/services/token_service.py:348-386 | where validation for a spend and booking it agree, and the two edges where they do not |
| Sync.FirstMissing | app/services/transaction_service.py:137-149 | the first required field that is missing, or none if none is |
| Sync.VerdictsPartition | app/services/transaction_service.py:88-90 | accepted, rejected and duplicate verdicts partition the batch |
| Sync.CompleteMeans | app/services/transaction_service.py:137-149 | an element is complete iff amount and sequence number are not zero and none of the texts is empty |
| Sync.RaisesIff | app/services/transaction_service.py:133-208 | an element raises iff it passes the checks on itself and its token, and then names an unreadable party or device behind known ones, or has a stored nonce whose key has lapsed with the sequence number in order |
| Sync.RefusedBecause | app/services/transaction_service.py:133-166 | duplicate, incomplete, unknown token, inactive token, expired token, no room: each verdict with exactly the elements that get it |
| Sync.RefusedBecauseOf | app/services/transaction_service.py:167-208 | the same of unknown payer, payee and device, used nonce and stale sequence number |
| Sync.AcceptingWrites | app/services/transaction_service.py:195-232 | an accepted element adds its row, its nonce, its sequence number and its amount on its token's usage, and nothing else |
| Sync.AcceptedIff | app/services/transaction_service.py:133-232 | an element is accepted iff it passes all the checks, and then exactly it is booked; otherwise at most its nonce is used up |
| Sync.AcceptedCount | app/services/transaction_service.py:88-90 | the accepted and duplicate counts are the numbers of such verdicts |
| Sync.RejectedCount | app/services/transaction_service.py:89 | so is the rejected one, whatever the reasons |
| Sync.BatchRaisesIff | app/services/transaction_service.py:78-86 | a batch raises iff some element meets that condition in the state the ones before it leave, none of them meeting it |
| Sync.RefusingWrites | app/services/transaction_service.py:183-193 | an element uses up its nonce iff it gets as far as the nonce; one that is not accepted writes nothing else |
| Sync.RaisedAt | app/services/transaction_service.py:78-86 | a batch raises at its first element without a verdict, leaving every table as it was and every key as that element left it |
| Sync.ProcessedIsRefused | app/services/transaction_service.py:133-193 | whatever the verdict, the same element is refused from then on |
| Sync.RefusalPersists | app/services/transaction_service.py:133-193 | every reason to refuse outlives time and every other element, except a negative one that is accepted |
| Sync.RefusalsPersistIff | app/services/transaction_service.py:162-165 | all refusals outlive one more element iff it is not a negative one that will be accepted |
| Sync.ResyncIsIdempotent | app/services/transaction_service.py:78-90 | a batch that went through, sent again, accepts nothing and changes nothing, and accepted elements come back as duplicates, provided nothing negative was accepted |
| Sync.NothingAcceptedIff | app/services/transaction_service.py:133-232 | a batch that goes through accepts nothing iff no element is acceptable beforehand and the first to claim its nonce |
| Sync.RollbackKeepsRefusalsIff | app/services/transaction_service.py:78-86 | the refusals in force when a batch raises outlive its rollback iff no element before the raising one is such |
| Witnesses.NegativeAmountBreaksIdempotence | app/services/transaction_service.py:162-165 | a run to a batch with a negative element that accepts, sent again, what it first refused |
| Witnesses.RaisedBatchIsNotIdempotent | app/services/transaction_service.py:176-178 | a run to a batch that raises and, sent again, goes through with other elements accepted |
| System.NonceServesOnce | app/services/transaction_service.py:183-193 | nothing is accepted again under the nonce of an accepted element, in any run; under that of one turned away for its sequence number, for as long as the key lives |
| System.RaisedIsLost | app/services/transaction_service.py:78-86 | an element accepted before the one that raised is not stored, and nothing is accepted under its nonce for as long as the key lives |
| System.BookKeepsDistinct | app/services/transaction_service.py:183-229 | acceptance keeps ids and nonces distinct |
| System.BookKeepsSequence | app/services/transaction_service.py:188-193 | and the sequence numbers of each device and token increasing |
| System.ProcessKeepsIff | app/services/transaction_service.py:156-232 | an element keeps the tables coupled iff it is not one that is accepted and takes usage below zero |
| System.StepSetsStatus | app/services/token_service.py:255-346 | the status every token has after a step of each kind |
| System.StepMovesMoney | app/services/ledger_service.py:50-204 | what a credit, debit or transfer moves on every balance |
| System.LapseDoes | app/core/redis.py:87-117 | keys go when they lapse, and nothing else changes |
| System.ReachableIsAudited | app/services/ledger_service.py:71-85 | in every run whatsoever: entries carry their running sums, available is the sum of entries, and money in the system is what came in less what went out |
| System.ReachableIsReplayFree | app/services/transaction_service.py:124-252 | in every run whatsoever, lapsing keys included: usage is accepted plus direct spends, within the amount, and no two accepted transactions share an id or a nonce |
| System.ReachableIsInSequence | app/core/redis.py:104-114 | as long as the key of a device and token does not lapse, their sequence numbers strictly increase |
| System.RunConserves | app/services/ledger_service.py:50-305 | over every run from every state the money in the system changes by external credits and debits alone |
| System.RunStaysInCredit | app/services/ledger_service.py:120-124 | no run takes a locked balance below zero, and none without overdrafts an available one |
| System.FrozenForGood | app/services/transaction_service.py:156-157 | in every run whatsoever: once expired or revoked, a token stays closed and its usage is frozen |
| System.StepKeeps | app/services/ledger_service.py:20-305 | every legal step of the machine keeps every table and key consistent with every other |
| System.LegalIsExact | app/workers/token_expiry_worker.py:130-147 | and no other step does, batches of several elements aside |
| System.ReachableIsCoupled | app/services/ledger_service.py:206-305 | in every legal run: locked is the sum over tokens, usage within bounds, and refund entries exact |
| System.ReachableClampIsIdle | app/services/ledger_service.py:276-279 | in every careful run the refund clamp has no effect on live tokens |
| System.StepKeepsBacked | app/workers/token_expiry_worker.py:52-69 | every careful step, refund-free bulk expiry included, keeps locked all that tokens account for |
| System.ReachableSweepIsTruthful | app/workers/token_expiry_worker.py:96-99 | in every careful run the reported refund total is true |
| System.ClosedForGood | app/workers/token_expiry_worker.py:52-69 | in every legal run: of a closed token, used plus refunded is the amount for good |
| Witnesses.EachGuardIsNeeded | app/workers/token_expiry_worker.py:130-147 | a run after which a repeated refund, a negative spend, a negative element and a bulk expiry each break the tables apart |
| Coverage.PayoutsAreCovered | app/services/settlement_service.py:127-139 | in every careful run of the whole system in which nothing negative was accepted or spent: transfers are made for stored transactions only, within the usage of each token and within what its owner has locked |
| Witnesses.NegativeUncoversPayout | app/services/transaction_service.py:226-232 | a run with a negative element after which more has been paid out than is locked |
| Witnesses.RefundUncoversPayout | app/workers/token_expiry_worker.py:130-147 | a run with nothing negative after which refunding a revoked token again does the same |
| Breaker.CircuitBreaker.RecordFailure | app/integrations/nomba/base_client.py:70-85 | prunes, appends, and opens at the threshold |
| Breaker.CircuitBreaker.RecordSuccess | app/integrations/nomba/base_client.py:87-91 | clears and closes |
| Breaker.CircuitBreaker.CanExecute | app/integrations/nomba/base_client.py:93-115 | admits or not, moving to half-open or counting a probe |
| Breaker.RecentConcat | app/integrations/nomba/base_client.py:70-76 | pruning keeps the order and treats each time by itself |
| Breaker.RecentMeans | app/integrations/nomba/base_client.py:73-76 | a time stays iff it is less than the window ago |
| Breaker.StepDoes | app/integrations/nomba/base_client.py:70-115 | after every event: in which state the breaker is iff what, its list, last failure and probes |
| Breaker.PrunedListIsWindow | app/integrations/nomba/base_client.py:70-76 | the pruned list is the filter of the whole failure history since the last success, iff the window is positive |
| Breaker.RunIsSafe | app/integrations/nomba/base_client.py:70-115 | closed means fewer listed failures than the threshold; a half-open episode admits at most four |
| Breaker.OpensExactlyAtThreshold | app/integrations/nomba/base_client.py:78-85 | opens iff a failure brings those in the window to the threshold |
| Breaker.OpenWaits | app/integrations/nomba/base_client.py:100-109 | while open, admits iff the reset timeout has passed since the last failure |
| Breaker.ExhaustedAfterIff | app/integrations/nomba/base_client.py:70-115 | with its probes used up, a half-open breaker stays so iff the event is neither a success nor a failure that reaches the threshold |
| Breaker.ExhaustedStaysShut | app/integrations/nomba/base_client.py:111-115 | time alone never admits a fifth request |
| Breaker.ShutForGoodIff | app/integrations/nomba/base_client.py:93-115 | no request will ever be admitted iff it is half-open with its probes used up |
| Breaker.EpisodeShutsForGoodIff | app/integrations/nomba/base_client.py:70-115 | an episode of four sends ends there iff none succeeded and no failure reached the threshold within the window |
| Breaker.FailedProbesShutForGood | app/integrations/nomba/base_client.py:70-115 | a run with the default settings in which four failed probes do |
| Requests.NombaClient.HandleResponse | app/integrations/nomba/base_client.py:400-452 | the answer for each status code, and what the breaker hears of it |
| Requests.NombaClient.Request | app/integrations/nomba/base_client.py:301-393 | terminates within the cap on sends; every send admitted; stops exactly at a refusal, the cap or an outcome that is not retried; the breaker hears exactly these turns |
| Requests.GoesOnAfter | app/integrations/nomba/base_client.py:327-393 | a call sends again exactly after a timeout or a connect failure below the cap when the breaker admits it; it ends on a response, another failure, a refusal or the cap |
| Requests.CapMeans | app/integrations/nomba/base_client.py:304-386 | one send and the retries, one retry at most without idempotence |
| Requests.AnswerMeans | app/integrations/nomba/base_client.py:301-393 | the caller sees the end of the last send, unless the breaker refused one |
| Requests.FinalMeans | app/integrations/nomba/base_client.py:400-452 | which outcome and status code is answered by which error |
| Requests.ToldMeans | app/integrations/nomba/base_client.py:327-358 | the breaker hears of transport failures and 5xx as failures, of 2xx as successes, and of nothing else |
| Requests.PlaysOneWay | app/integrations/nomba/base_client.py:304-386 | the environment determines the number of sends and whether the breaker refused |
| Requests.FailuresAreFailedSends | app/integrations/nomba/base_client.py:327-358 | breaker failures recorded equal failed sends, counting 5xx responses |
| Requests.FailuresWithinCap | app/integrations/nomba/base_client.py:304-386 | however a call ends, it records as many failures as it had failed sends, and no more than the cap |
| Requests.PlayedCallOnBreaker | app/integrations/nomba/base_client.py:442-445 | a call that returns a response leaves the breaker closed and empty, after one failure for each earlier send |
| RedisCounter.IncrementTokenSpending | app/core/redis.py:120-145 | one call of any amount from zero, with others interfering at every command: its answer is true, no increment is lost, it ends, and its retries are paid for by the key's growth |
| RedisCounter.ActKeepsSafe | app/core/redis.py:128-145 | every command of every client keeps the value equal to the successful increments and within the limit |
| RedisCounter.CounterIsSafe | app/core/redis.py:120-145 | so in every interleaving of any number of clients |
| RedisCounter.AnswersAreTrue | app/core/redis.py:136-143 | a success returns the key's value, a refused amount would not fit at that moment either |
| RedisCounter.RetryMeansOtherWrite | app/core/redis.py:144-145 | a retry means another client has set the key since this one's WATCH |
| RedisCounter.RetriesAreBounded | app/core/redis.py:129-145 | with amounts of at least one, retries never exceed what was left below the limit |
| RedisCounter.RetriesUnboundedAtZero | app/core/redis.py:129-145 | with amounts of zero any number of retries can be forced |
| Interleaving.WriteDoes | app/services/ledger_service.py:114-141 | a session's write puts what it read plus its amount over the row, granted iff what it read covers it |
| Interleaving.ActKeepsAuditedIff | app/services/ledger_service.py:68-85 | a session's step keeps the balance in line with the entries iff it does not write over a row changed since it was read |
| Interleaving.AuditedIffNeverStale | app/services/ledger_service.py:68-85 | so an interleaving does throughout iff it has no such write |
| Interleaving.BothDebitsGranted | app/services/ledger_service.py:114-141 | an interleaving of two debits of all there is, both granted |
| Locking.WaitsIff | app/services/token_service.py:268-272 | a read waits iff some session holds the row |
| Locking.LockKeepsAudited | app/services/token_service.py:268-272 | with the row locked as the token row is, every interleaving of any number of sessions keeps balance and entries in line and the balance from going negative |
| Settlement.Find | app/repositories/settlement_repository.py:32-37 | none, the one, or more than one row of a transaction |
| Settlement.Session.ProcessSettlement | app/services/settlement_service.py:40-203 | the status guards, the row, and its completed or failed end, which stays in the session when it raises |
| Settlement.Session.ProcessInOwnSession | app/workers/settlement_worker.py:21-39 | what raises is rolled back |
| Settlement.Session.ProcessBatchSettlements | app/workers/settlement_worker.py:87-109 | what raises is swallowed and committed; counts the successes |
| Settlement.Session.RetryFailedSettlements | app/workers/settlement_worker.py:46-80 | from any agreed state settles nothing and changes nothing |
| Settlement.Session.TransferSuccessWebhook | app/services/settlement_service.py:218-245 | settles transaction and row together |
| Settlement.Session.TransferFailedWebhook | app/services/settlement_service.py:247-282 | fails transaction and row together, keeping identifiers |
| Settlement.AttemptConcludes | app/services/settlement_service.py:93-203 | an attempt that reaches the transfer leaves, answered, a completed row and a settled transaction with the transfer on both; otherwise a failed row without one and a failed transaction with its reference as it was; one attempt more than before; nothing else changes |
| Settlement.AttemptStops | app/services/settlement_service.py:56-92 | any other attempt changes nothing and gives the first reason that applies |
| Settlement.SingleConcludes | app/workers/settlement_worker.py:21-39 | in a session of its own an answered attempt leaves the same, any other nothing but what the provider did |
| Settlement.BatchConcludes | app/workers/settlement_worker.py:87-109 | a batch commits the end of each of its attempts, the failed ones too, and reports each |
| Settlement.WebhooksDo | app/services/settlement_service.py:205-282 | a webhook ends a known transaction with one row at most, and that row, the successful one with its identifier; it touches no other and no number of attempts |
| Settlement.EntryAndExecutionDo | app/services/transaction_service.py:207-224 | a transaction comes in verified without a reference; what the provider executes is a transfer once |
| Settlement.CopyDoes | app/workers/reconciliation_worker.py:222-224 | a copied status replaces that of its transaction alone |
| Settlement.ProcessAllKeeps | app/workers/settlement_worker.py:87-109 | a batch keeps every invariant below |
| Settlement.ReachablePaysOnce | app/services/settlement_service.py:59-103 | in every run whatsoever, copied statuses included: no transfer is made twice, no transaction has a second row, and none is verified that has one |
| Settlement.ReachableAgrees | app/services/settlement_service.py:137-203 | in every run whatsoever: rows and transactions agree on transfer and, where no status was copied over it, on status; nothing committed is settling |
| Settlement.ReachableIsTruthful | app/services/settlement_service.py:137-139 | in every run with honest webhooks: a transfer on record is that of this transaction, and the provider has executed or accepted it |
| Settlement.ProcessKeepsPaidIff | app/services/settlement_service.py:127-139 | an attempt keeps "settled means paid" iff it is not one answered for a transfer that is not executed |
| Settlement.SettledMeansPaid | app/services/settlement_service.py:137-139 | in every run with honest webhooks and no such answer: a settled transaction has been paid by the transfer on record |
| Settlement.SettledUnpaid | app/integrations/nomba/types.py:134 | a run with such an answer to a settled transaction nobody has been paid for, which a failure webhook then leaves failed |
| Settlement.ReportIsTrue | app/workers/settlement_worker.py:96-107 | without such an answer, what a batch reports as a success is settled and paid |
| Settlement.TakeKeepsIdsIff | app/services/settlement_service.py:230-236 | a step leaves every identifier on one row at most iff it is not a webhook that brings one another row has |
| Settlement.IdsStayDistinct | app/services/settlement_service.py:230-236 | so no identifier is on two rows in any run without such a webhook |
| Settlement.EmptyIdsCollide | app/services/webhook_service.py:289-293 | a run with two webhooks without identifier that leaves the empty one on two rows |
| Settlement.RetryNeverSettles | app/repositories/settlement_repository.py:115-123 | in every reachable state, copied statuses included, every row picked for retry stops at the status guard |
| Settlement.CopyStrandsIff | app/workers/reconciliation_worker.py:222-224 | after a copied status a worker can settle a transaction iff it is verified and not the one copied onto |
| Settlement.CommittedFailureIsFinal | app/services/settlement_service.py:174-203 | only a success webhook ever gets a transaction settled that failed or had a status copied onto it |
| Reconciliation.IndexRemote | app/workers/reconciliation_worker.py:52-56 | maps each reference to its last remote row, given that rows have one |
| Reconciliation.LastRemoteMeans | app/workers/reconciliation_worker.py:52-56 | a reference is indexed iff some row has it, with the last row that does |
| Reconciliation.Diff | app/workers/reconciliation_worker.py:52-116 | the loops, over the reference of each remote row: each list holds exactly the keys it should, once; the flag is down iff both sides reconcile |
| Reconciliation.RunReconciliation | app/workers/reconciliation_worker.py:52-116 | the worker as written: it returns its lists iff there are no remote rows, and then lists every local row that is not pending |
| Reconciliation.FlagMeaning | app/workers/reconciliation_worker.py:113-115 | all three lists are empty iff both sides reconcile |
| Reconciliation.ReportedOnce | app/workers/reconciliation_worker.py:75-103 | no key is in two lists |
| Fraud.FraudService.Assess | app/services/fraud_service.py:97-117 | the score is the device's seven-day window sum after recording |
| Fraud.FraudService.EvaluateCheckpoint1 | app/services/fraud_service.py:66-136 | blocks iff that sum reaches 60 |
| Fraud.FraudService.ProvisioningGate | app/services/token_service.py:113-125 | blocks iff the new score and the device's history reach 60, and then leaves no trace |
| Fraud.FraudService.EvaluateCheckpoint2 | app/services/fraud_service.py:138-208 | flags iff that sum reaches 60 |
| Fraud.FraudService.HistoricalScore | app/services/fraud_service.py:275-290 | the sum over the device's signals of the last seven days |
| Fraud.FraudService.CheckAutoBlacklist | app/services/fraud_service.py:292-373 | lists the device iff a threshold is met, with the first reason in its order |
| Fraud.FraudService.ScanForBlacklistCandidates | app/workers/blacklist_worker.py:28-149 | lists every candidate of the three queries that is not listed yet |
| Fraud.ScoreTable | app/services/fraud_service.py:20-46 | which kinds of signal score how much |
| Fraud.CountMeans | app/services/fraud_service.py:292-343 | a query counts the device's signals of its kinds that are not older than its window |
| Fraud.WindowScoreMeans | app/services/fraud_service.py:275-290 | each signal of the device adds its score iff it is of the last seven days |
| Fraud.VerdictsMean | app/services/fraud_service.py:292-343 | which counts list a device online, and which reason each of the two gives |
| Fraud.TrustRecords | app/services/fraud_service.py:80-104 | what checkpoint 1 finds, each signal iff its check fails, once |
| Fraud.TrustScores | app/services/fraud_service.py:80-104 | and what that scores |
| Fraud.ClaimRecords | app/services/fraud_service.py:148-170 | the same of checkpoint 2 |
| Fraud.ClaimScores | app/services/fraud_service.py:148-170 | and what that scores |
| Fraud.RecordsEach | app/services/fraud_service.py:105-114 | each kind found becomes one signal of the device, in order, with its score |
| Fraud.CheckpointDoes | app/services/fraud_service.py:105-117 | a checkpoint lists its own device at most, iff it was not listed and now has enough signals |
| Fraud.ScanDoes | app/workers/blacklist_worker.py:41-140 | a scan lists exactly the devices with enough signals and leaves those listed before as they are |
| Fraud.AdmitDoes | app/services/token_service.py:113-125 | an attempt leaves its signals iff what it finds and the past seven days stay below 60 |
| Fraud.ScoreIsWindowAfter | app/services/fraud_service.py:97-114 | score of the new signals plus history is the window sum once they are recorded |
| Fraud.BlockingNeedsHistory | app/services/fraud_service.py:81-122 | no trust check blocks by itself: a blocked device already had signals in the window |
| Fraud.BlockedLeaveNoTrace | app/services/token_service.py:121-125 | however often a device tries, provisioning alone never brings its score on record to the threshold |
| Fraud.CandidatesAreOnline | app/workers/blacklist_worker.py:41-96 | the union of the grouped queries is what the online check would list |
| Fraud.OnlineEqualsScan | app/workers/blacklist_worker.py:41-140 | folding the online check over all devices lists exactly the devices the scan does |
| Fraud.ReasonsAgreeIff | app/workers/blacklist_worker.py:152-178 | the two give the same reason iff the device has three signals but too few double spends and integrity failures to be named for them |
| Fraud.ScanFindsNothingNew | app/services/fraud_service.py:105-117 | if every signal comes through a checkpoint, no later scan finds anybody new |
| Fraud.RecordOnlyKeepsIff | app/services/fraud_service.py:210-227 | a signal injected by hand leaves nothing for the scan iff the device is listed, or has at most one signal in the window and this is not its second double spend |
| Fraud.RecordedByHandIsMissed | app/services/fraud_service.py:210-227 | two double spends, the second by hand, that only the scan finds |

## Left out

- HTTP, OAuth and response parsing: a send is one of four outcomes.
- SQL and sessions: a session commits or rolls back as a whole.  A `record_spend` that raises past the cutoff leaves `spend_locked` in its session; whether that is committed is the caller's doing, and both ways keep the invariants.
- Runs of whole operations are runs of serial sessions: the lock on the token row and the advisory lock are taken as given, and the ledger takes none.  `Interleaving.dfy` shows for one balance row what interleaving does to it; interleavings of the other services are not modelled.
- Parsing of anything but identifiers in a batch: a non-numeric amount or sequence number raises in the source too.
- System.LegalIsExact: batches of several elements are left out, because one may take the usage below zero and a later one bring it back.
- RedisCounter.IncrementTokenSpending: other clients add at least one each; with additions of zero a call need not end (`RedisCounter.RetriesUnboundedAtZero`).
- The 48 hours after which Redis keys lapse: keys lapse at any moment instead, and the spending counter's key does not.
- Coverage.PayoutsAreCovered: transfers are counted at the stored amount; their conversion to the provider's currency unit is not modelled.
- The page of 1000 local rows that reconciliation reads: the local rows are an input.
- `compute_delay`, device trust arithmetic, GPS checks: single formulas.
- Signatures, hashing, PIN, OTP, JWT, audit log, notifications, routers and middleware.
- app/services/wallet_service.py and the other handlers of app/services/webhook_service.py.
