/**
 * What holds after any sequence of TransactionService calls, each applied
 * atomically and one after the other: the log only grows, no balance goes
 * negative, and each account's balance equals its starting balance minus
 * the amounts of the successful uses recorded for it since.
 */
module LedgerHistory {
  import opened Domain
  import opened Service

  /** One call into the service, with its arguments. */
  datatype Call =
    | UseCall(userId: Long, accountNumber: string, amount: Long, stamp: Stamp)
    | FailedUseCall(accountNumber: string, amount: Long, stamp: Stamp)

  /** A use carries a positive amount, as the request constraints guarantee; a failed-use record needs none. */
  predicate Admissible(c: Call) {
    c.UseCall? ==> c.amount > 0
  }

  predicate PositiveAmounts(calls: seq<Call>) {
    forall i :: 0 <= i < |calls| ==> Admissible(calls[i])
  }

  function Apply(s: Store, c: Call): Store
    requires Admissible(c)
  {
    match c
    case UseCall(userId, n, amount, stamp) => UseStep(s, userId, n, amount, stamp).store
    case FailedUseCall(n, amount, stamp) => FailedUseStep(s, n, amount, stamp).store
  }

  /** The stores after performing `calls` in order, starting from `s`. */
  function Run(s: Store, calls: seq<Call>): Store
    requires PositiveAmounts(calls)
  {
    if calls == [] then s
    else Apply(Run(s, calls[..|calls| - 1]), calls[|calls| - 1])
  }

  /** Does `t` record a successful use of account `n`? */
  predicate IsDebitOf(t: Transaction, n: string) {
    t.transactionType == Use && t.transactionResultType == S && t.accountNumber == n
  }

  /** The total amount of the successful uses of account `n` recorded in `log`. */
  function Debited(log: seq<Transaction>, n: string): int {
    if log == [] then 0
    else Debited(log[..|log| - 1], n) + (if IsDebitOf(log[|log| - 1], n) then log[|log| - 1].amount else 0)
  }

  /** One call keeps the user set and the account numbers and only appends to the log. */
  lemma ApplyAppendsOnly(s: Store, c: Call)
    requires Admissible(c)
    ensures var s' := Apply(s, c);
      && s'.users == s.users
      && s'.accounts.Keys == s.accounts.Keys
      && |s.transactions| <= |s'.transactions| <= |s.transactions| + 1
      && s'.transactions[..|s.transactions|] == s.transactions
  {
  }

  lemma {:induction false} RunAppendsOnly(s: Store, calls: seq<Call>)
    requires PositiveAmounts(calls)
    ensures var s' := Run(s, calls);
      && s'.users == s.users
      && s'.accounts.Keys == s.accounts.Keys
      && |s.transactions| <= |s'.transactions|
      && s'.transactions[..|s.transactions|] == s.transactions
  {
    if calls != [] {
      var init := calls[..|calls| - 1];
      RunAppendsOnly(s, init);
      ApplyAppendsOnly(Run(s, init), calls[|calls| - 1]);
    }
  }

  /** No sequence of calls makes a balance negative or breaks the key/id agreement. */
  lemma {:induction false} RunKeepsWellFormed(s: Store, calls: seq<Call>)
    requires WellFormed(s) && PositiveAmounts(calls)
    ensures WellFormed(Run(s, calls))
  {
    if calls != [] {
      var init := calls[..|calls| - 1];
      RunKeepsWellFormed(s, init);
      match calls[|calls| - 1]
      case UseCall(userId, n, amount, stamp) => UseKeepsWellFormed(Run(s, init), userId, n, amount, stamp);
      case FailedUseCall(n, amount, stamp) => FailedUseKeepsWellFormed(Run(s, init), n, amount, stamp);
    }
  }

  /** One call lowers `n`'s balance by exactly what it adds to `n`'s recorded debits. */
  lemma ApplyAudit(s: Store, c: Call, n: string)
    requires WellFormed(s) && Admissible(c) && n in s.accounts
    ensures var s' := Apply(s, c);
      && n in s'.accounts
      && |s.transactions| <= |s'.transactions|
      && s'.accounts[n].balance + Debited(s'.transactions[|s.transactions|..], n) == s.accounts[n].balance
  {
  }

  /** Debits of a log split in two add up. */
  lemma {:induction false} DebitedAppend(a: seq<Transaction>, b: seq<Transaction>, n: string)
    ensures Debited(a + b, n) == Debited(a, n) + Debited(b, n)
  {
    if b == [] {
      assert a + b == a;
    } else {
      assert (a + b)[..|a + b| - 1] == a + b[..|b| - 1];
      DebitedAppend(a, b[..|b| - 1], n);
    }
  }

  /**
   * The audit trail accounts for every unit spent: after any sequence of
   * calls, an account's balance is its starting balance minus the amounts
   * of the successful uses appended to the log for it.
   */
  lemma {:induction false} RunAudit(s: Store, calls: seq<Call>, n: string)
    requires WellFormed(s) && PositiveAmounts(calls) && n in s.accounts
    ensures var s' := Run(s, calls);
      && n in s'.accounts
      && |s.transactions| <= |s'.transactions|
      && s'.accounts[n].balance == s.accounts[n].balance - Debited(s'.transactions[|s.transactions|..], n)
  {
    RunAppendsOnly(s, calls);
    if calls != [] {
      var init := calls[..|calls| - 1];
      var mid := Run(s, init);
      var s' := Run(s, calls);
      RunAudit(s, init, n);
      RunKeepsWellFormed(s, init);
      ApplyAudit(mid, calls[|calls| - 1], n);
      var k, m := |s.transactions|, |mid.transactions|;
      assert s'.transactions[k..] == mid.transactions[k..] + s'.transactions[m..] by {
        ApplyAppendsOnly(mid, calls[|calls| - 1]);
        assert s'.transactions == mid.transactions + s'.transactions[m..];
      }
      DebitedAppend(mid.transactions[k..], s'.transactions[m..], n);
    }
  }
}
