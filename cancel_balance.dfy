/**
 * The request and response of the "cancel balance" endpoint. A request is
 * accepted only when its declared field constraints hold; the response
 * is projected from the record the service saved.
 */
module CancelBalance {
  import opened Wrappers
  import opened Domain

  /** The JSON body as bound: every field may be absent (null). */
  datatype Request = Request(transactionId: Option<string>, accountNumber: Option<string>, amount: Option<Long>)

  const AccountNumberLength := 10
  const MinAmount := 10
  const MaxAmount := 1_000_000_000

  /** `String.trim()` without its end part: drops the leading characters at or below U+0020. */
  function TrimStart(text: string): (r: string)
    ensures |r| <= |text| && r == text[|text| - |r|..]
    ensures |r| > 0 ==> r[0] > ' '
    ensures forall i :: 0 <= i < |text| - |r| ==> text[i] <= ' '
  {
    if text == [] then []
    else if text[0] <= ' ' then TrimStart(text[1..])
    else text
  }

  /** `String.trim()` without its start part: drops the trailing characters at or below U+0020. */
  function TrimEnd(text: string): (r: string)
    ensures |r| <= |text| && r == text[..|r|]
    ensures |r| > 0 ==> r[|r| - 1] > ' '
    ensures forall i :: |r| <= i < |text| ==> text[i] <= ' '
  {
    if text == [] then []
    else if text[|text| - 1] <= ' ' then TrimEnd(text[..|text| - 1])
    else text
  }

  /** `String.trim()`: drops the characters at or below U+0020 at both ends. */
  function Trim(text: string): (r: string)
    ensures |r| <= |text|
    ensures |r| > 0 ==> r[0] > ' ' && r[|r| - 1] > ' '
  {
    TrimEnd(TrimStart(text))
  }

  /**
   * Not blank: present, with at least one character above U+0020; see
   * `NotBlankIsNonEmptyTrim` for its agreement with `String.trim()`.
   */
  predicate NotBlank(text: Option<string>) {
    text.Some? && exists i :: 0 <= i < |text.value| && text.value[i] > ' '
  }

  /**
   * The declared constraints: transactionId not blank; accountNumber
   * non-null with exactly ten characters; amount non-null and within
   * [MinAmount, MaxAmount].
   */
  predicate Valid(request: Request) {
    && NotBlank(request.transactionId)
    && request.accountNumber.Some? && |request.accountNumber.value| == AccountNumberLength
    && request.amount.Some? && MinAmount <= request.amount.value <= MaxAmount
  }

  datatype Response = Response(
    accountNumber: string,
    transactionResultType: TransactionResultType,
    transactionId: string,
    amount: Long,
    transactedAt: Timestamp)

  /** Response.from: the fields of the response, copied from the saved record. */
  function From(t: Transaction): Response {
    Response(t.accountNumber, t.transactionResultType, t.transactionId, t.amount, t.transactedAt)
  }

  /** Trimming the start leaves something exactly when some character is above U+0020. */
  lemma TrimStartFindsVisible(text: string)
    ensures |TrimStart(text)| > 0 <==> exists i :: 0 <= i < |text| && text[i] > ' '
  {
    var r := TrimStart(text);
    if |r| > 0 {
      assert text[|text| - |r|] == r[0];
    }
  }

  /** Trimming the end of a text that starts above U+0020 leaves at least that character. */
  lemma TrimEndKeepsVisibleHead(text: string)
    requires |text| > 0 && text[0] > ' '
    ensures |TrimEnd(text)| > 0
  {
  }

  /** `@NotBlank` on a present string holds exactly when `String.trim()` leaves it non-empty. */
  lemma NotBlankIsNonEmptyTrim(text: string)
    ensures NotBlank(Some(text)) <==> |Trim(text)| > 0
  {
    TrimStartFindsVisible(text);
    if |TrimStart(text)| > 0 {
      TrimEndKeepsVisibleHead(TrimStart(text));
    }
  }

  /**
   * Absent, empty and all-at-or-below-U+0020 ids are blank; an id with a
   * character above U+0020 is not, even when that character is a Unicode
   * space such as U+2003, which `String.trim()` keeps.
   */
  lemma BlankIds()
    ensures !NotBlank(None) && !NotBlank(Some("")) && !NotBlank(Some(" \t\n"))
    ensures NotBlank(Some(" x ")) && NotBlank(Some("\U{2003}"))
  {
    assert " x "[1] > ' ';
    assert "\U{2003}"[0] > ' ';
  }

  /**
   * Two records give the same response exactly when they agree on the five
   * copied fields: the transaction type and the balance snapshot are not
   * carried.
   */
  lemma FromCopiesExactlyFiveFields(t1: Transaction, t2: Transaction)
    ensures From(t1) == From(t2) <==>
              && t1.accountNumber == t2.accountNumber
              && t1.transactionResultType == t2.transactionResultType
              && t1.transactionId == t2.transactionId
              && t1.amount == t2.amount
              && t1.transactedAt == t2.transactedAt
  {
  }
}
