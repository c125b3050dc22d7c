/**
 * The entities and enumerations the balance ledger works on: users, accounts,
 * transaction records, error codes and the exceptions that carry them.
 */
module Domain {

  /** Java's `long` / `Long`: a 64-bit two's-complement integer. */
  type Long = x: int | -0x8000_0000_0000_0000 <= x <= 0x7fff_ffff_ffff_ffff

  /** A `LocalDateTime` reading, as a count of clock ticks. */
  type Timestamp = int

  /**
   * The error codes an `AccountException` carries, in declaration order.
   * Names are spelled out in full; the source spells two of them ALREDAY.
   */
  datatype ErrorCode =
    | UserNotFound
    | MaxAccountPerUser10
    | AccountNotFound
    | UserAccountUnmatch
    | AccountAlreadyRegistered
    | AccountAlreadyUnregistered
    | BalanceNotEmpty
    | AmountExceedBalance

  /** An exception leaving a service call: an `AccountException` or anything else. */
  datatype Exception =
    | AccountException(errorCode: ErrorCode)
    | OtherException(name: string)

  datatype AccountStatus = InUse | Unregistered

  datatype TransactionType = Use | Cancel

  /** Outcome of a recorded attempt: S(uccess) or F(ailure). */
  datatype TransactionResultType = S | F

  /** An account holder; only the identity takes part in the ledger. */
  datatype AccountUser = AccountUser(id: Long)

  /** One ledger balance, owned by the user whose id is `ownerId`. */
  datatype Account = Account(accountNumber: string, ownerId: Long, status: AccountStatus, balance: Long)

  /**
   * An entry of the transaction log. The account it belongs to is named by
   * its account number.
   */
  datatype Transaction = Transaction(
    transactionType: TransactionType,
    transactionResultType: TransactionResultType,
    accountNumber: string,
    amount: Long,
    balanceSnapshot: Long,
    transactionId: string,
    transactedAt: Timestamp)

  /**
   * What building one record consumes from outside the ledger: the text of
   * a freshly generated random UUID and the current clock reading.
   */
  datatype Stamp = Stamp(uuid: string, now: Timestamp)
}
