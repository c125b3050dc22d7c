/**
 * The balance "use" ledger of TransactionService: the debit with its
 * fixed-order guard chain, the recording of a failed attempt, and the
 * construction of transaction records.
 *
 * The three repositories become a `Store` value (users by id, accounts by
 * account number, the append-only transaction log). The pure functions
 * `UseStep` and `FailedUseStep` specify one call each; the class
 * `TransactionService` holds the stores in fields and its methods are
 * proved to follow those functions.
 */
module Service {
  import opened Wrappers
  import opened Domain

  datatype Store = Store(
    users: map<Long, AccountUser>,
    accounts: map<string, Account>,
    transactions: seq<Transaction>)

  /**
   * What the repositories guarantee: a user is found under its own id, an
   * account under its own number, and no balance is negative.
   */
  ghost predicate WellFormed(s: Store) {
    && (forall id :: id in s.users ==> s.users[id].id == id)
    && (forall n :: n in s.accounts ==> s.accounts[n].accountNumber == n && s.accounts[n].balance >= 0)
  }

  /** The effect of one service call: the stores afterwards and what the call returned or threw. */
  datatype Step = Step(store: Store, outcome: Result<Transaction, ErrorCode>)

  // ---------------------------------------------------------------------------
  // Transaction ids

  /** `s.replace("-", "")`: the characters of `s` other than '-', in order. */
  function RemoveDashes(s: string): (r: string)
    ensures |r| <= |s|
    ensures forall i :: 0 <= i < |r| ==> r[i] != '-' && r[i] in s
    ensures (forall i :: 0 <= i < |s| ==> s[i] != '-') ==> r == s
  {
    if s == [] then []
    else if s[0] == '-' then RemoveDashes(s[1..])
    else [s[0]] + RemoveDashes(s[1..])
  }

  lemma {:induction false} RemoveDashesAppend(a: string, b: string)
    ensures RemoveDashes(a + b) == RemoveDashes(a) + RemoveDashes(b)
  {
    if a == [] {
      assert a + b == b;
    } else {
      assert (a + b)[0] == a[0];
      assert (a + b)[1..] == a[1..] + b;
      RemoveDashesAppend(a[1..], b);
    }
  }

  /** Removing the dashes of `a + "-" + b` keeps a dash-free `a` and drops the separator. */
  lemma RemoveDashesAfterGroup(a: string, b: string)
    requires forall i :: 0 <= i < |a| ==> a[i] != '-'
    ensures RemoveDashes(a + "-" + b) == a + RemoveDashes(b)
  {
    RemoveDashesAppend(a + "-", b);
    RemoveDashesAppend(a, "-");
  }

  predicate IsLowerHexDigit(c: char) {
    '0' <= c <= '9' || 'a' <= c <= 'f'
  }

  /** The 8-4-4-4-12 lower-case text that `UUID.toString()` produces. */
  predicate IsUuidText(u: string) {
    && |u| == 36
    && forall i :: 0 <= i < 36 ==>
         if i == 8 || i == 13 || i == 18 || i == 23 then u[i] == '-' else IsLowerHexDigit(u[i])
  }

  /** Dash-free groups joined by single dashes lose exactly the dashes. */
  lemma RemoveDashesOfGroups(u: string)
    requires |u| == 36 && u[8] == '-' && u[13] == '-' && u[18] == '-' && u[23] == '-'
    requires forall i :: 0 <= i < |u| && i != 8 && i != 13 && i != 18 && i != 23 ==> u[i] != '-'
    ensures |RemoveDashes(u)| == 32
  {
    var r1, r2, r3, r4 := u[9..], u[14..], u[19..], u[24..];
    assert u == u[..8] + "-" + r1;
    assert r1 == r1[..4] + "-" + r2;
    assert r2 == r2[..4] + "-" + r3;
    assert r3 == r3[..4] + "-" + r4;
    RemoveDashesAfterGroup(u[..8], r1);
    RemoveDashesAfterGroup(r1[..4], r2);
    RemoveDashesAfterGroup(r2[..4], r3);
    RemoveDashesAfterGroup(r3[..4], r4);
  }

  /** A record id made from a UUID's text is its 32 hexadecimal digits. */
  lemma TransactionIdFromUuid(u: string)
    requires IsUuidText(u)
    ensures |RemoveDashes(u)| == 32
    ensures forall i :: 0 <= i < 32 ==> IsLowerHexDigit(RemoveDashes(u)[i])
  {
    RemoveDashesOfGroups(u);
    forall i | 0 <= i < 32 ensures IsLowerHexDigit(RemoveDashes(u)[i]) {
      var j :| 0 <= j < 36 && u[j] == RemoveDashes(u)[i];
    }
  }

  // ---------------------------------------------------------------------------
  // Specification of one call

  /**
   * The guard chain run on a found user and account: ownership by id
   * equality, then the account's status, then sufficiency of the balance.
   */
  function ValidateUserBalance(user: AccountUser, account: Account, amount: Long): (r: Outcome<ErrorCode>)
    ensures r.Pass? <==> user.id == account.ownerId && account.status == InUse && amount <= account.balance
    ensures r == Fail(UserAccountUnmatch) <==> user.id != account.ownerId
    ensures r == Fail(AccountAlreadyUnregistered) <==> user.id == account.ownerId && account.status != InUse
    ensures r == Fail(AmountExceedBalance) <==>
              user.id == account.ownerId && account.status == InUse && account.balance < amount
  {
    if user.id != account.ownerId then Fail(UserAccountUnmatch)
    else if account.status != InUse then Fail(AccountAlreadyUnregistered)
    else if account.balance < amount then Fail(AmountExceedBalance)
    else Pass
  }

  /** The record saveAndGetTransaction builds: always of type USE, snapshot = the account's balance. */
  function NewTransaction(result: TransactionResultType, account: Account, amount: Long, stamp: Stamp): Transaction {
    Transaction(Use, result, account.accountNumber, amount, account.balance, RemoveDashes(stamp.uuid), stamp.now)
  }

  /** saveAndGetTransaction: append the record for `account` to the log and return it. */
  function SaveAndGetStep(s: Store, result: TransactionResultType, account: Account, amount: Long, stamp: Stamp): (r: Step)
    ensures r.outcome.Success?
    ensures r.store == s.(transactions := s.transactions + [r.outcome.value])
    ensures r.outcome.value.transactionType == Use && r.outcome.value.transactionResultType == result
    ensures r.outcome.value.balanceSnapshot == account.balance && r.outcome.value.amount == amount
    ensures r.outcome.value.accountNumber == account.accountNumber
    ensures r.outcome.value.transactionId == RemoveDashes(stamp.uuid) && r.outcome.value.transactedAt == stamp.now
  {
    var t := NewTransaction(result, account, amount, stamp);
    Step(s.(transactions := s.transactions + [t]), Success(t))
  }

  /**
   * useBalance: look the user up, then the account, run the guard chain;
   * only when every check passes debit the account and append a USE/S
   * record whose snapshot is the new balance.
   */
  function UseStep(s: Store, userId: Long, accountNumber: string, amount: Long, stamp: Stamp): (r: Step)
    requires amount > 0
    ensures r.outcome.Failure? ==> r.store == s
    ensures r.outcome.Success? ==>
              && accountNumber in s.accounts
              && var before := s.accounts[accountNumber];
              && 0 < amount <= before.balance
              && r.store.users == s.users
              && r.store.accounts == s.accounts[accountNumber := before.(balance := before.balance - amount)]
              && r.store.transactions == s.transactions + [r.outcome.value]
              && r.outcome.value
                 == Transaction(Use, S, before.accountNumber, amount, before.balance - amount,
                                RemoveDashes(stamp.uuid), stamp.now)
  {
    if userId !in s.users then Step(s, Failure(UserNotFound))
    else if accountNumber !in s.accounts then Step(s, Failure(AccountNotFound))
    else
      var account := s.accounts[accountNumber];
      var check := ValidateUserBalance(s.users[userId], account, amount);
      if check.Fail? then Step(s, Failure(check.error))
      else
        var debited := account.(balance := account.balance - amount);
        SaveAndGetStep(s.(accounts := s.accounts[accountNumber := debited]), S, debited, amount, stamp)
  }

  /**
   * saveFailedUseTransaction: append a USE/F record carrying the account's
   * current balance; the balance itself is not touched and no check of
   * `UseStep` is run again.
   */
  function FailedUseStep(s: Store, accountNumber: string, amount: Long, stamp: Stamp): (r: Step)
    ensures r.outcome.Failure? <==> accountNumber !in s.accounts
    ensures r.outcome.Failure? ==> r.outcome.error == AccountNotFound && r.store == s
    ensures r.outcome.Success? ==>
              && r.store.users == s.users
              && r.store.accounts == s.accounts
              && r.store.transactions == s.transactions + [r.outcome.value]
              && r.outcome.value
                 == Transaction(Use, F, s.accounts[accountNumber].accountNumber, amount,
                                s.accounts[accountNumber].balance, RemoveDashes(stamp.uuid), stamp.now)
  {
    if accountNumber !in s.accounts then Step(s, Failure(AccountNotFound))
    else SaveAndGetStep(s, F, s.accounts[accountNumber], amount, stamp)
  }

  // ---------------------------------------------------------------------------
  // Properties of one call

  /** The first failing check decides the error; success exactly when all pass. */
  lemma UseChecksInOrder(s: Store, userId: Long, n: string, amount: Long, stamp: Stamp)
    requires amount > 0
    ensures var r := UseStep(s, userId, n, amount, stamp).outcome;
      && (r == Failure(UserNotFound) <==> userId !in s.users)
      && (r == Failure(AccountNotFound) <==> userId in s.users && n !in s.accounts)
      && (r == Failure(UserAccountUnmatch) <==>
            userId in s.users && n in s.accounts && s.users[userId].id != s.accounts[n].ownerId)
      && (r == Failure(AccountAlreadyUnregistered) <==>
            userId in s.users && n in s.accounts && s.users[userId].id == s.accounts[n].ownerId
            && s.accounts[n].status != InUse)
      && (r == Failure(AmountExceedBalance) <==>
            userId in s.users && n in s.accounts && s.users[userId].id == s.accounts[n].ownerId
            && s.accounts[n].status == InUse && s.accounts[n].balance < amount)
      && (r.Success? <==>
            userId in s.users && n in s.accounts && s.users[userId].id == s.accounts[n].ownerId
            && s.accounts[n].status == InUse && amount <= s.accounts[n].balance)
  {
  }

  /** With users found under their own ids, ownership is equality of the account's owner id with `userId`. */
  lemma OwnershipIsUserIdEquality(s: Store, userId: Long, n: string, amount: Long, stamp: Stamp)
    requires WellFormed(s) && amount > 0
    requires userId in s.users && n in s.accounts
    ensures UseStep(s, userId, n, amount, stamp).outcome == Failure(UserAccountUnmatch) <==> userId != s.accounts[n].ownerId
  {
  }

  /** Spending the whole balance is allowed and leaves exactly zero. */
  lemma WholeBalanceCanBeUsed(s: Store, userId: Long, n: string, stamp: Stamp)
    requires userId in s.users && n in s.accounts
    requires s.users[userId].id == s.accounts[n].ownerId && s.accounts[n].status == InUse
    requires s.accounts[n].balance > 0
    ensures var r := UseStep(s, userId, n, s.accounts[n].balance, stamp);
      r.outcome.Success? && r.store.accounts[n].balance == 0 && r.outcome.value.balanceSnapshot == 0
  {
  }

  /** A use leaves the store well formed: in particular no balance becomes negative. */
  lemma UseKeepsWellFormed(s: Store, userId: Long, n: string, amount: Long, stamp: Stamp)
    requires WellFormed(s) && amount > 0
    ensures WellFormed(UseStep(s, userId, n, amount, stamp).store)
  {
  }

  lemma FailedUseKeepsWellFormed(s: Store, n: string, amount: Long, stamp: Stamp)
    requires WellFormed(s)
    ensures WellFormed(FailedUseStep(s, n, amount, stamp).store)
  {
  }

  // ---------------------------------------------------------------------------
  // The service object

  class TransactionService {
    var users: map<Long, AccountUser>
    var accounts: map<string, Account>
    var transactions: seq<Transaction>

    function Model(): Store
      reads this
    {
      Store(users, accounts, transactions)
    }

    constructor (users: map<Long, AccountUser>, accounts: map<string, Account>, transactions: seq<Transaction>)
      ensures Model() == Store(users, accounts, transactions)
    {
      this.users := users;
      this.accounts := accounts;
      this.transactions := transactions;
    }

    method UseBalance(userId: Long, accountNumber: string, amount: Long, stamp: Stamp)
      returns (r: Result<Transaction, ErrorCode>)
      requires amount > 0
      modifies this
      ensures Step(Model(), r) == UseStep(old(Model()), userId, accountNumber, amount, stamp)
    {
      if userId !in users {
        return Failure(UserNotFound);
      }
      var user := users[userId];
      if accountNumber !in accounts {
        return Failure(AccountNotFound);
      }
      var account := accounts[accountNumber];
      var check := ValidateUserBalance(user, account, amount);
      if check.Fail? {
        return Failure(check.error);
      }
      account := account.(balance := account.balance - amount);
      accounts := accounts[accountNumber := account];
      var t := SaveAndGetTransaction(S, account, amount, stamp);
      return Success(t);
    }

    /** Returns normally, or throws `AccountNotFound` (as `Fail`). */
    method SaveFailedUseTransaction(accountNumber: string, amount: Long, stamp: Stamp)
      returns (r: Outcome<ErrorCode>)
      modifies this
      ensures var spec := FailedUseStep(old(Model()), accountNumber, amount, stamp);
        && Model() == spec.store
        && (r.Fail? <==> spec.outcome.Failure?)
        && (r.Fail? ==> r.error == spec.outcome.error)
    {
      if accountNumber !in accounts {
        return Fail(AccountNotFound);
      }
      var account := accounts[accountNumber];
      var _ := SaveAndGetTransaction(F, account, amount, stamp);
      return Pass;
    }

    /** saveAndGetTransaction on the service's own log, as `SaveAndGetStep` specifies it. */
    method SaveAndGetTransaction(result: TransactionResultType, account: Account, amount: Long, stamp: Stamp)
      returns (t: Transaction)
      modifies this
      ensures Step(Model(), Success(t)) == SaveAndGetStep(old(Model()), result, account, amount, stamp)
    {
      t := NewTransaction(result, account, amount, stamp);
      transactions := transactions + [t];
    }
  }
}
