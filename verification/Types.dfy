/** The tables of the OffiMesh money core, as values.

    Amounts are whole kobo, instants are whole seconds.  A token is known by the
    position of its row in the offline_tokens table, which only ever grows. */
module Types {
  type UserId = nat
  type DeviceId = nat
  type TokenId = nat
  type Instant = int

  datatype Option<+T> = None | Some(value: T)

  datatype Status = Active | SpendLocked | Exhausted | Expired | Revoked

  datatype Token = Token(user: UserId, amount: int, used: int, status: Status, cutoff: Instant, expiresAt: Instant) {
    predicate Open() {
      status.Active? || status.SpendLocked?
    }

    /** Expired and revoked tokens have had their unspent part handed back. */
    predicate Closed() {
      status.Expired? || status.Revoked?
    }

    function Unused(): int {
      amount - used
    }

    /** What this row accounts for in its owner's locked balance. */
    function Held(): int {
      if Closed() then used else amount
    }
  }

  datatype Balance = Balance(available: int, locked: int)

  datatype Column = Available | Locked

  function Read(row: Balance, column: Column): int {
    match column
    case Available => row.available
    case Locked => row.locked
  }

  datatype EntryType = CreditEntry | DebitEntry

  /** `External` stands for every reference type other than the two the offline
      tokens use.  `Issue` has no token: the lock is written under "pending". */
  datatype Reference = External | Issue | Refund(token: TokenId)

  datatype Entry = Entry(user: UserId, kind: EntryType, amount: int, reference: Reference, balanceAfter: int) {
    function Signed(): int {
      if kind.CreditEntry? then amount else -amount
    }
  }

  datatype Error =
    | Validation
    | InsufficientFunds(needed: int, available: int)
    | NotFound
    | BatchLimitExceeded
    | Unhandled

  /** ledger_balances, ledger_entries and offline_tokens. */
  datatype Bank = Bank(balances: map<UserId, Balance>, entries: seq<Entry>, tokens: seq<Token>)

  /** What a service call leaves in its session, and what it raised, if anything. */
  datatype Outcome = Outcome(bank: Bank, error: Option<Error>)

  /** Statuses of a transaction; `Reported` is one only the payment provider uses. */
  datatype TxStatus = Verified | Settling | Settled | SettlementFailed | Reported(code: nat)

  const EMPTY_BANK := Bank(map[], [], [])

  function Min(x: int, y: int): int {
    if x < y then x else y
  }

  /** A user without a row is read as a row of zeroes. */
  function Row(b: Bank, u: UserId): Balance {
    if u in b.balances then b.balances[u] else Balance(0, 0)
  }
}
