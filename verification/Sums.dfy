/** Sums over the tables, and how appending or rewriting one row moves them. */
module Sums {
  import opened Types

  /** SUM over the tokens of `u` of what each accounts for in `locked`. */
  function HeldBy(tokens: seq<Token>, u: UserId): int {
    if tokens == [] then 0
    else
      var last := tokens[|tokens| - 1];
      HeldBy(tokens[..|tokens| - 1], u) + if last.user == u then last.Held() else 0
  }

  /** Credits less debits of `u`. */
  function Net(entries: seq<Entry>, u: UserId): int {
    if entries == [] then 0
    else
      var last := entries[|entries| - 1];
      Net(entries[..|entries| - 1], u) + if last.user == u then last.Signed() else 0
  }

  /** Everything ever handed back against token `t`. */
  function Refunded(entries: seq<Entry>, t: TokenId): int {
    if entries == [] then 0
    else
      var last := entries[|entries| - 1];
      Refunded(entries[..|entries| - 1], t) + if last.reference == Refund(t) then last.amount else 0
  }

  /** Money that crossed the system boundary: external credits less external debits. */
  function ExternalNet(entries: seq<Entry>): int {
    if entries == [] then 0
    else
      var last := entries[|entries| - 1];
      ExternalNet(entries[..|entries| - 1]) + if last.reference == External then last.Signed() else 0
  }

  /** SUM of one column of ledger_balances. */
  ghost function Total(rows: map<UserId, Balance>, column: Column): int
    decreases |rows|
  {
    if rows == map[] then 0
    else
      var u :| u in rows;
      Read(rows[u], column) + Total(rows - {u}, column)
  }

  ghost function Money(b: Bank): int {
    Total(b.balances, Available) + Total(b.balances, Locked)
  }

  lemma {:induction false} HeldByUpdate(tokens: seq<Token>, t: TokenId, row: Token, u: UserId)
    requires t < |tokens| && row.user == tokens[t].user
    ensures HeldBy(tokens[t := row], u) == HeldBy(tokens, u)
            + if row.user == u then row.Held() - tokens[t].Held() else 0
  {
    var front := tokens[..|tokens| - 1];
    if t == |tokens| - 1 {
      assert tokens[t := row][..|tokens| - 1] == front;
    } else {
      assert tokens[t := row][..|tokens| - 1] == front[t := row];
      HeldByUpdate(front, t, row, u);
    }
  }

  lemma {:induction false} HeldByAppend(tokens: seq<Token>, row: Token, u: UserId)
    ensures HeldBy(tokens + [row], u) == HeldBy(tokens, u) + if row.user == u then row.Held() else 0
  {
    assert (tokens + [row])[..|tokens|] == tokens;
  }

  lemma {:induction false} HeldByBounds(tokens: seq<Token>, t: TokenId)
    requires t < |tokens|
    requires forall i | 0 <= i < |tokens| :: 0 <= tokens[i].Held()
    ensures tokens[t].Held() <= HeldBy(tokens, tokens[t].user)
  {
    var front := tokens[..|tokens| - 1];
    HeldByNonNegative(front, tokens[t].user);
    if t < |tokens| - 1 {
      HeldByBounds(front, t);
    }
  }

  lemma {:induction false} HeldByNonNegative(tokens: seq<Token>, u: UserId)
    requires forall i | 0 <= i < |tokens| :: 0 <= tokens[i].Held()
    ensures 0 <= HeldBy(tokens, u)
  {
    if tokens != [] {
      HeldByNonNegative(tokens[..|tokens| - 1], u);
    }
  }

  /** A sum of non-negative holdings is zero exactly when every one is. */
  lemma {:induction false} HeldByZero(tokens: seq<Token>, u: UserId)
    requires forall i | 0 <= i < |tokens| :: 0 <= tokens[i].Held()
    ensures HeldBy(tokens, u) == 0 <==> forall i | 0 <= i < |tokens| && tokens[i].user == u :: tokens[i].Held() == 0
  {
    if tokens != [] {
      var n := |tokens| - 1;
      HeldByZero(tokens[..n], u);
      HeldByNonNegative(tokens[..n], u);
      assert forall i | 0 <= i < n :: tokens[..n][i] == tokens[i];
    }
  }

  lemma {:induction false} EntryAppend(entries: seq<Entry>, e: Entry, u: UserId)
    ensures Net(entries + [e], u) == Net(entries, u) + if e.user == u then e.Signed() else 0
  {
    assert (entries + [e])[..|entries|] == entries;
  }

  lemma {:induction false} RefundAppend(entries: seq<Entry>, e: Entry, t: TokenId)
    ensures Refunded(entries + [e], t) == Refunded(entries, t) + if e.reference == Refund(t) then e.amount else 0
  {
    assert (entries + [e])[..|entries|] == entries;
  }

  lemma {:induction false} ExternalAppend(entries: seq<Entry>, e: Entry)
    ensures ExternalNet(entries + [e]) == ExternalNet(entries) + if e.reference == External then e.Signed() else 0
  {
    assert (entries + [e])[..|entries|] == entries;
  }

  /** A token no refund entry names has nothing refunded. */
  lemma {:induction false} RefundedUnnamed(entries: seq<Entry>, t: TokenId)
    requires forall i | 0 <= i < |entries| :: entries[i].reference != Refund(t)
    ensures Refunded(entries, t) == 0
  {
    if entries != [] {
      RefundedUnnamed(entries[..|entries| - 1], t);
    }
  }

  /** The total does not depend on which row is taken out first. */
  lemma {:induction false} TotalExcept(rows: map<UserId, Balance>, u: UserId, column: Column)
    requires u in rows
    ensures Total(rows, column) == Read(rows[u], column) + Total(rows - {u}, column)
    decreases |rows|
  {
    var v :| v in rows && Total(rows, column) == Read(rows[v], column) + Total(rows - {v}, column);
    if v != u {
      TotalExcept(rows - {v}, u, column);
      TotalExcept(rows - {u}, v, column);
      assert rows - {v} - {u} == rows - {u} - {v};
    }
  }

  lemma {:induction false} TotalUpdate(b: Bank, u: UserId, row: Balance, column: Column)
    ensures Total(b.balances[u := row], column) == Total(b.balances, column)
            + Read(row, column) - Read(Row(b, u), column)
  {
    TotalExcept(b.balances[u := row], u, column);
    assert b.balances[u := row] - {u} == b.balances - {u};
    if u in b.balances {
      TotalExcept(b.balances, u, column);
    } else {
      assert b.balances - {u} == b.balances;
    }
  }
}
