/**
 * The request and response of the "use balance" endpoint. A request is
 * accepted only when its declared field constraints hold; the response
 * is projected from the record the service saved.
 */
module UseBalance {
  import opened Wrappers
  import opened Domain

  /** The JSON body as bound: every field may be absent (null). */
  datatype Request = Request(userId: Option<Long>, accountNumber: Option<string>, amount: Option<Long>)

  const AccountNumberLength := 10
  const MinAmount := 10
  const MaxAmount := 1_000_000_000

  /**
   * The declared constraints: userId non-null and at least 1; accountNumber
   * non-null with exactly ten characters (any characters); amount non-null
   * and within [MinAmount, MaxAmount].
   */
  predicate Valid(request: Request) {
    && request.userId.Some? && request.userId.value >= 1
    && request.accountNumber.Some? && |request.accountNumber.value| == AccountNumberLength
    && request.amount.Some? && MinAmount <= request.amount.value <= MaxAmount
  }

  datatype Response = Response(
    accountNumber: string,
    transactionResultType: TransactionResultType,
    transactionId: string,
    amount: Long,
    transactedAt: Timestamp)

  /** Response.from: the fields of the response, copied from the saved record. */
  function From(t: Transaction): Response {
    Response(t.accountNumber, t.transactionResultType, t.transactionId, t.amount, t.transactedAt)
  }

  /** A valid request reaches the service with a positive amount and a positive user id. */
  lemma ValidRequestIsPositive(request: Request)
    requires Valid(request)
    ensures request.amount.value > 0 && request.userId.value > 0
  {
  }

  /** The amount bounds are inclusive at both ends, and only the length of the account number is checked. */
  lemma AcceptedBoundaries()
    ensures Valid(Request(Some(1), Some("abcdefghij"), Some(MinAmount)))
    ensures Valid(Request(Some(1), Some("0000000000"), Some(MaxAmount)))
    ensures !Valid(Request(Some(1), Some("0000000000"), Some(MinAmount - 1)))
    ensures !Valid(Request(Some(1), Some("0000000000"), Some(MaxAmount + 1)))
    ensures !Valid(Request(Some(0), Some("0000000000"), Some(MinAmount)))
    ensures !Valid(Request(Some(1), Some("000000000"), Some(MinAmount)))
    ensures !Valid(Request(None, Some("0000000000"), Some(MinAmount)))
  {
  }

  /**
   * Two records give the same response exactly when they agree on the five
   * copied fields: the transaction type and the balance snapshot are not
   * carried.
   */
  lemma FromCopiesExactlyFiveFields(t1: Transaction, t2: Transaction)
    ensures From(t1) == From(t2) <==>
              && t1.accountNumber == t2.accountNumber
              && t1.transactionResultType == t2.transactionResultType
              && t1.transactionId == t2.transactionId
              && t1.amount == t2.amount
              && t1.transactedAt == t2.transactedAt
  {
  }
}
