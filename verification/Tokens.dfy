/** The life of an offline token (app/services/token_service.py and its two sweeps). */
module Tokens {
  import opened Types
  import opened Ledger

  const SPEND_SECONDS := 48 * 3600

  /** What the identity, device, trust and fraud gates before provisioning decided. */
  datatype Clearance = Barred(error: Error) | Cleared(maxToken: int, ttlHours: int)

  /** provision_token: cap at the device limit, lock, then create the row. */
  function Provision(b: Bank, u: UserId, requested: int, clearance: Clearance, now: Instant): Outcome {
    if clearance.Barred? then Outcome(b, Some(clearance.error))
    else if clearance.maxToken == 0 then Outcome(b, Some(Validation))
    else
      var limit := Min(requested, clearance.maxToken);
      var locked := Lock(b, u, limit);
      if locked.error.Some? then Outcome(locked.bank, Some(Validation))
      else
        var row := Token(u, limit, 0, Active, now + SPEND_SECONDS, now + clearance.ttlHours * 3600);
        Outcome(locked.bank.(tokens := locked.bank.tokens + [row]), None)
  }

  function SetToken(b: Bank, t: TokenId, row: Token): Bank
    requires t < |b.tokens|
  {
    b.(tokens := b.tokens[t := row])
  }

  /** record_spend: note that it is the attempt itself that locks a token past its cutoff. */
  function RecordSpend(b: Bank, t: TokenId, amount: int, now: Instant): Outcome {
    if t >= |b.tokens| then Outcome(b, Some(NotFound))
    else
      var row := b.tokens[t];
      if !row.status.Active? then Outcome(b, Some(Validation))
      else if now > row.cutoff then Outcome(SetToken(b, t, row.(status := SpendLocked)), Some(Validation))
      else if row.used + amount > row.amount then Outcome(b, Some(Validation))
      else
        var status := if row.used + amount >= row.amount then Exhausted else Active;
        Outcome(SetToken(b, t, row.(used := row.used + amount, status := status)), None)
  }

  /** A token is made out for the request or the device limit, whichever is less, if that
      is positive and available; it can be spent for 48 hours and expires after as many
      hours as the device's trust allows, be that sooner or later. */
  lemma {:induction false} ProvisionDoes(b: Bank, u: UserId, requested: int, clearance: Clearance, now: Instant)
    ensures var r := Provision(b, u, requested, clearance, now);
            match clearance
            case Barred(error) => r == Outcome(b, Some(error))
            case Cleared(maxToken, ttlHours) =>
              var limit := if requested < maxToken then requested else maxToken;
              var available := Row(b, u).available;
              if maxToken != 0 && 0 < limit <= available then
                && r.error.None?
                && r.bank.tokens == b.tokens + [Token(u, limit, 0, Active, now + 172800, now + 3600 * ttlHours)]
                && Posts(b, r.bank.(tokens := b.tokens), u, -limit, limit,
                         Entry(u, DebitEntry, limit, Issue, available - limit))
              else r.error == Some(Validation) && Unmoved(b, r.bank, u)
  {
    if clearance.Cleared? {
      LockDoes(b, u, Min(requested, clearance.maxToken));
    }
  }

  /** Only the token spent on changes: its usage by a spend that fits, which exhausts it when
      it fills it, and its status by one that comes after the cutoff. */
  lemma {:induction false} RecordSpendDoes(b: Bank, t: TokenId, amount: int, now: Instant)
    ensures var r := RecordSpend(b, t, amount, now);
            && r.bank.balances == b.balances && r.bank.entries == b.entries
            && |r.bank.tokens| == |b.tokens|
            && (forall s: TokenId | s < |b.tokens| && s != t :: r.bank.tokens[s] == b.tokens[s])
            && if t >= |b.tokens| then r.error == Some(NotFound)
               else
                 var row := b.tokens[t];
                 var row' := r.bank.tokens[t];
                 && row' == row.(used := row'.used, status := row'.status)
                 && (r.error.None? <==> row.status.Active? && now <= row.cutoff && row.used + amount <= row.amount)
                 && (r.error.Some? ==> r.error == Some(Validation) && row'.used == row.used)
                 && (r.error.None? ==>
                       && row'.used == row.used + amount
                       && (row'.status.Exhausted? <==> row'.used == row.amount)
                       && (row'.status.Active? <==> row'.used < row.amount))
                 && (r.error.Some? ==>
                       row'.status == if row.status.Active? && row.cutoff < now then SpendLocked else row.status)
  {
  }

  /** validate_token_for_spend: `spend_locked` by itself is no reason to refuse. */
  predicate Validates(row: Token, amount: int, now: Instant) {
    && !row.Closed() && !row.status.Exhausted?
    && now <= row.expiresAt
    && now <= row.cutoff
    && amount <= row.Unused()
  }

  /** The can_spend flag of get_token_status. */
  predicate CanSpend(row: Token, now: Instant) {
    row.status.Active? && now <= row.cutoff && row.Unused() > 0
  }

  /** The flag says exactly whether record_spend would take the smallest spend. */
  lemma {:induction false} CanSpendMeans(b: Bank, t: TokenId, now: Instant)
    requires t < |b.tokens|
    ensures CanSpend(b.tokens[t], now) <==> RecordSpend(b, t, 1, now).error.None?
    ensures CanSpend(b.tokens[t], now) <==> exists amount :: 0 < amount && RecordSpend(b, t, amount, now).error.None?
  {
  }

  /** Validation and booking agree except at two edges: validation lets a spend-locked row
      through, and booking ignores the expiry clock, which for a software-backed device
      (24 hours) runs out before the cutoff clock (48 hours). */
  lemma {:induction false} ValidateAgainstRecord(b: Bank, t: TokenId, amount: int, now: Instant)
    requires t < |b.tokens|
    ensures var row := b.tokens[t];
            var booked := RecordSpend(b, t, amount, now).error.None?;
            && (booked <==> (Validates(row.(expiresAt := now), amount, now) && row.status.Active?))
            && (Validates(row, amount, now) && !booked <==>
                  && row.status == SpendLocked && now <= row.expiresAt && now <= row.cutoff
                  && row.used + amount <= row.amount)
            && (booked && !Validates(row, amount, now) <==> booked && row.expiresAt < now <= row.cutoff)
  {
  }

  /** Refund what is unspent, if anything. */
  function PaidOut(b: Bank, t: TokenId): Bank
    requires t < |b.tokens|
  {
    var row := b.tokens[t];
    if row.Unused() > 0 then Unlock(b, row.user, row.Unused(), t) else b
  }

  /** Refund, then set the final status. */
  function Close(b: Bank, t: TokenId, status: Status): Bank
    requires t < |b.tokens|
  {
    SetToken(PaidOut(b, t), t, b.tokens[t].(status := status))
  }

  function Revoke(b: Bank, t: TokenId): Outcome {
    if t >= |b.tokens| then Outcome(b, Some(NotFound))
    else if b.tokens[t].Closed() then Outcome(b, None)
    else Outcome(Close(b, t, Revoked), None)
  }

  /** refund_specific_token: only an expired token is left alone. */
  function RefundSpecific(b: Bank, t: TokenId): Outcome {
    if t >= |b.tokens| then Outcome(b, Some(NotFound))
    else if b.tokens[t].status.Expired? then Outcome(b, None)
    else Outcome(Close(b, t, Expired), None)
  }

  predicate PastExpiry(row: Token, now: Instant) {
    row.expiresAt < now && row.Open()
  }

  predicate PastCutoff(row: Token, now: Instant) {
    row.cutoff < now && row.status.Active?
  }

  /** The two periodic queries. */
  datatype Sweep = ExpirySweep | CutoffSweep

  predicate Due(sweep: Sweep, row: Token, now: Instant) {
    match sweep
    case ExpirySweep => PastExpiry(row, now)
    case CutoffSweep => PastCutoff(row, now)
  }

  ghost predicate Rows(rows: seq<TokenId>, tokens: seq<Token>) {
    && (forall i | 0 <= i < |rows| :: rows[i] < |tokens|)
    && (forall i, j | 0 <= i < j < |rows| :: rows[i] != rows[j])
  }

  /** `rows` is a result of the query: each matching row once, in any order. */
  ghost predicate Selects(sweep: Sweep, rows: seq<TokenId>, tokens: seq<Token>, now: Instant) {
    && Rows(rows, tokens)
    && (forall t: TokenId | t < |tokens| :: t in rows <==> Due(sweep, tokens[t], now))
  }

  /** One pass of the expiry sweep over the selected rows. */
  function ExpireRows(b: Bank, rows: seq<TokenId>): Bank
    requires forall i | 0 <= i < |rows| :: rows[i] < |b.tokens|
    ensures |ExpireRows(b, rows).tokens| == |b.tokens|
  {
    if rows == [] then b
    else
      var front := ExpireRows(b, rows[..|rows| - 1]);
      Close(front, rows[|rows| - 1], Expired)
  }

  /** The total the sweep reports: unclamped, and only the positive parts. */
  function ReportedRefund(tokens: seq<Token>, rows: seq<TokenId>): int
    requires forall i | 0 <= i < |rows| :: rows[i] < |tokens|
  {
    if rows == [] then 0
    else
      var unused := tokens[rows[|rows| - 1]].Unused();
      ReportedRefund(tokens, rows[..|rows| - 1]) + if unused > 0 then unused else 0
  }

  /** One pass of the cutoff sweep over the selected rows. */
  function CutoffRows(b: Bank, rows: seq<TokenId>): Bank
    requires forall i | 0 <= i < |rows| :: rows[i] < |b.tokens|
    ensures |CutoffRows(b, rows).tokens| == |b.tokens|
  {
    if rows == [] then b
    else
      var front := CutoffRows(b, rows[..|rows| - 1]);
      var t := rows[|rows| - 1];
      SetToken(front, t, front.tokens[t].(status := SpendLocked))
  }

  /** TokenRepository.expire_tokens: one UPDATE, no refund. */
  function BulkExpire(b: Bank, now: Instant): Bank {
    b.(tokens := seq(|b.tokens|, i requires 0 <= i < |b.tokens| => BulkExpired(b.tokens[i], now)))
  }

  function BulkExpired(row: Token, now: Instant): Token {
    if row.status.Active? && row.expiresAt < now then row.(status := Expired) else row
  }
}
