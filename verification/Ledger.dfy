/** What each ledger operation does to the tables (app/services/ledger_service.py). */
module Ledger {
  import opened Types
  import opened Sums

  /** get_or_create_balance leaves a row behind. */
  function Opened(b: Bank, u: UserId): Bank {
    b.(balances := b.balances[u := Row(b, u)])
  }

  /** Every movement writes the balance row and one entry carrying the new available balance. */
  function Post(b: Bank, u: UserId, row: Balance, kind: EntryType, amount: int, reference: Reference): Bank {
    b.(balances := b.balances[u := row],
       entries := b.entries + [Entry(u, kind, amount, reference, row.available)])
  }

  function Credit(b: Bank, u: UserId, amount: int, reference: Reference): Outcome {
    if amount <= 0 then Outcome(b, Some(Validation))
    else
      var row := Row(b, u);
      Outcome(Post(b, u, row.(available := row.available + amount), CreditEntry, amount, reference), None)
  }

  function Debit(b: Bank, u: UserId, amount: int, reference: Reference, overdraft: bool): Outcome {
    var row := Row(b, u);
    if amount <= 0 then Outcome(b, Some(Validation))
    else if !overdraft && row.available < amount then
      Outcome(Opened(b, u), Some(InsufficientFunds(amount, row.available)))
    else Outcome(Post(b, u, row.(available := row.available - amount), DebitEntry, amount, reference), None)
  }

  function Transfer(b: Bank, payer: UserId, payee: UserId, amount: int, reference: Reference): Outcome {
    if amount <= 0 then Outcome(b, Some(Validation))
    else
      var debited := Debit(b, payer, amount, reference, false);
      if debited.error.Some? then debited else Credit(debited.bank, payee, amount, reference)
  }

  function Lock(b: Bank, u: UserId, amount: int): Outcome {
    var row := Row(b, u);
    if amount <= 0 then Outcome(b, Some(Validation))
    else if row.available < amount then
      Outcome(Opened(b, u), Some(InsufficientFunds(amount, row.available)))
    else
      Outcome(Post(b, u, Balance(row.available - amount, row.locked + amount), DebitEntry, amount, Issue), None)
  }

  /** unlock_and_refund: the refund is silently clamped to what is locked. */
  function Unlock(b: Bank, u: UserId, amount: int, t: TokenId): Bank {
    if amount <= 0 then Opened(b, u)
    else
      var row := Row(b, u);
      var refund := Min(amount, row.locked);
      Post(b, u, Balance(row.available + refund, row.locked - refund), CreditEntry, refund, Refund(t))
  }

  // ------------------------------------------------------ what can be seen of it

  /** Exactly this entry is new, and exactly this row has changed, by so much. */
  ghost predicate Posts(b: Bank, b': Bank, u: UserId, available: int, locked: int, entry: Entry) {
    && b'.tokens == b.tokens
    && b'.entries == b.entries + [entry]
    && b'.balances.Keys == b.balances.Keys + {u}
    && forall v: UserId ::
         && Row(b', v).available == Row(b, v).available + (if v == u then available else 0)
         && Row(b', v).locked == Row(b, v).locked + (if v == u then locked else 0)
  }

  /** At most an empty row for `u` is new. */
  ghost predicate Unmoved(b: Bank, b': Bank, u: UserId) {
    && b'.tokens == b.tokens && b'.entries == b.entries
    && b.balances.Keys <= b'.balances.Keys <= b.balances.Keys + {u}
    && forall v: UserId :: Row(b', v) == Row(b, v)
  }

  lemma {:induction false} OpenedDoes(b: Bank, u: UserId)
    ensures Unmoved(b, Opened(b, u), u) && u in Opened(b, u).balances
  {
  }

  lemma {:induction false} CreditDoes(b: Bank, u: UserId, amount: int, reference: Reference)
    ensures var r := Credit(b, u, amount, reference);
            if amount <= 0 then r.error == Some(Validation) && r.bank == b
            else
              && r.error.None?
              && Posts(b, r.bank, u, amount, 0,
                       Entry(u, CreditEntry, amount, reference, Row(b, u).available + amount))
  {
  }

  lemma {:induction false} DebitDoes(b: Bank, u: UserId, amount: int, reference: Reference, overdraft: bool)
    ensures var r := Debit(b, u, amount, reference, overdraft);
            var available := Row(b, u).available;
            if amount <= 0 then r.error == Some(Validation) && r.bank == b
            else if !overdraft && available < amount then
              r.error == Some(InsufficientFunds(amount, available)) && Unmoved(b, r.bank, u)
            else
              && r.error.None?
              && Posts(b, r.bank, u, -amount, 0, Entry(u, DebitEntry, amount, reference, available - amount))
  {
  }

  lemma {:induction false} LockDoes(b: Bank, u: UserId, amount: int)
    ensures var r := Lock(b, u, amount);
            var available := Row(b, u).available;
            if amount <= 0 then r.error == Some(Validation) && r.bank == b
            else if available < amount then
              r.error == Some(InsufficientFunds(amount, available)) && Unmoved(b, r.bank, u)
            else
              && r.error.None?
              && Posts(b, r.bank, u, -amount, amount, Entry(u, DebitEntry, amount, Issue, available - amount))
  {
  }

  lemma {:induction false} UnlockDoes(b: Bank, u: UserId, amount: int, t: TokenId)
    ensures var b' := Unlock(b, u, amount, t);
            var row := Row(b, u);
            if amount <= 0 then Unmoved(b, b', u)
            else
              var refund := if amount < row.locked then amount else row.locked;
              Posts(b, b', u, refund, -refund, Entry(u, CreditEntry, refund, Refund(t), row.available + refund))
  {
  }

  function SumOf(entries: seq<Entry>, u: UserId, kind: EntryType): int {
    if entries == [] then 0
    else
      var last := entries[|entries| - 1];
      SumOf(entries[..|entries| - 1], u, kind) + if last.user == u && last.kind == kind then last.amount else 0
  }

  /** verify_balance_integrity: entries against available plus locked. */
  predicate Reconciles(b: Bank, u: UserId) {
    SumOf(b.entries, u, CreditEntry) - SumOf(b.entries, u, DebitEntry) == Row(b, u).available + Row(b, u).locked
  }

  lemma {:induction false} CreditsLessDebits(entries: seq<Entry>, u: UserId)
    ensures SumOf(entries, u, CreditEntry) - SumOf(entries, u, DebitEntry) == Net(entries, u)
  {
    if entries != [] {
      CreditsLessDebits(entries[..|entries| - 1], u);
    }
  }
}
