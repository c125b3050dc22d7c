/**
 * The two balance endpoints of TransactionController. Each one calls the
 * service; on an `AccountException` it asks the service to record a failed
 * attempt with the request's account number and amount, then throws the
 * caught exception again, unless the recording call threw one of its own,
 * which then leaves instead.
 *
 * The use endpoint is modelled with its state: a controller object whose
 * method drives a `TransactionService`. The cancel endpoint's service
 * operations are not part of this model, so their outcomes are parameters
 * and only the endpoint's own composition is modelled.
 */
module Controller {
  import opened Wrappers
  import opened Domain
  import opened Service
  import opened LedgerHistory
  import UseDto = UseBalance
  import CancelDto = CancelBalance

  /** The stores after an endpoint call and what the endpoint returned or threw. */
  datatype Reply<T> = Reply(store: Store, result: Result<T, Exception>)

  /**
   * The `throw e;` that ends the catch clause, reached only if the
   * failure-recording call returned; if it threw, that exception leaves.
   */
  function Rethrown(caught: Exception, recording: Outcome<Exception>): Exception {
    if recording.Fail? then recording.error else caught
  }

  /** The failure-recording call's outcome, as the exception it may throw. */
  function RecordingOutcome(recorded: Step): Outcome<Exception> {
    if recorded.outcome.Success? then Pass else Fail(AccountException(recorded.outcome.error))
  }

  /** The use endpoint, for a request that passed validation. */
  function UseBalanceEndpoint(s: Store, request: UseDto.Request, useStamp: Stamp, failStamp: Stamp): (r: Reply<UseDto.Response>)
    requires UseDto.Valid(request)
    ensures r.result.Failure? ==> r.result.error.AccountException?
    ensures r.result.Success? <==>
      UseStep(s, request.userId.value, request.accountNumber.value, request.amount.value, useStamp).outcome.Success?
  {
    UseDto.ValidRequestIsPositive(request);
    var n, amount := request.accountNumber.value, request.amount.value;
    var used := UseStep(s, request.userId.value, n, amount, useStamp);
    if used.outcome.Success? then
      Reply(used.store, Success(UseDto.From(used.outcome.value)))
    else
      var recorded := FailedUseStep(used.store, n, amount, failStamp);
      Reply(recorded.store, Failure(Rethrown(AccountException(used.outcome.error), RecordingOutcome(recorded))))
  }

  /** A successful use is answered from its record, and no failure record is written. */
  lemma UseEndpointSuccess(s: Store, request: UseDto.Request, useStamp: Stamp, failStamp: Stamp)
    requires UseDto.Valid(request)
    requires UseStep(s, request.userId.value, request.accountNumber.value, request.amount.value, useStamp).outcome.Success?
    ensures var r := UseBalanceEndpoint(s, request, useStamp, failStamp);
      && |r.store.transactions| == |s.transactions| + 1
      && var t := r.store.transactions[|s.transactions|];
      && t.transactionType == Use && t.transactionResultType == S
      && r.result == Success(UseDto.From(t))
  {
  }

  /**
   * A rejected use of an existing account ends with every balance as it
   * was and exactly one new USE/F record carrying that account's balance;
   * the service's exception is the one thrown.
   */
  lemma RejectedUseRecordsOneFailure(s: Store, request: UseDto.Request, useStamp: Stamp, failStamp: Stamp)
    requires UseDto.Valid(request)
    requires UseStep(s, request.userId.value, request.accountNumber.value, request.amount.value, useStamp).outcome.Failure?
    requires request.accountNumber.value in s.accounts
    ensures var r := UseBalanceEndpoint(s, request, useStamp, failStamp);
      var n := request.accountNumber.value;
      && r.store.users == s.users
      && r.store.accounts == s.accounts
      && |r.store.transactions| == |s.transactions| + 1
      && r.store.transactions[..|s.transactions|] == s.transactions
      && var t := r.store.transactions[|s.transactions|];
      && t.transactionType == Use && t.transactionResultType == F
      && t.amount == request.amount.value
      && t.balanceSnapshot == s.accounts[n].balance
      && r.result == Failure(AccountException(
           UseStep(s, request.userId.value, n, request.amount.value, useStamp).outcome.error))
  {
  }

  /**
   * With an unknown account number nothing is recorded, and the recording
   * call's ACCOUNT_NOT_FOUND replaces the service's exception, which is
   * USER_NOT_FOUND when the user is unknown too.
   */
  lemma UnknownAccountMasksError(s: Store, request: UseDto.Request, useStamp: Stamp, failStamp: Stamp)
    requires UseDto.Valid(request)
    requires request.accountNumber.value !in s.accounts
    ensures var r := UseBalanceEndpoint(s, request, useStamp, failStamp);
      && r.store == s
      && r.result == Failure(AccountException(AccountNotFound))
    ensures request.userId.value !in s.users ==>
      UseStep(s, request.userId.value, request.accountNumber.value, request.amount.value, useStamp).outcome
      == Failure(UserNotFound)
  {
  }

  /**
   * The use endpoint is one or two service calls in a row, so everything
   * proved of runs of service calls holds of it.
   */
  lemma UseEndpointIsRun(s: Store, request: UseDto.Request, useStamp: Stamp, failStamp: Stamp)
    requires UseDto.Valid(request)
    ensures var n, amount := request.accountNumber.value, request.amount.value;
      var use := UseCall(request.userId.value, n, amount, useStamp);
      var calls := if UseStep(s, request.userId.value, n, amount, useStamp).outcome.Success? then [use]
                   else [use, FailedUseCall(n, amount, failStamp)];
      PositiveAmounts(calls) && UseBalanceEndpoint(s, request, useStamp, failStamp).store == Run(s, calls)
  {
    var n, amount := request.accountNumber.value, request.amount.value;
    var use := UseCall(request.userId.value, n, amount, useStamp);
    var failed := FailedUseCall(n, amount, failStamp);
    assert [use][..0] == [];
    assert Run(s, [use]) == Apply(s, use);
    assert [use, failed][..1] == [use];
    assert Run(s, [use, failed]) == Apply(Apply(s, use), failed);
  }

  /** The use endpoint keeps every balance non-negative. */
  lemma UseEndpointKeepsWellFormed(s: Store, request: UseDto.Request, useStamp: Stamp, failStamp: Stamp)
    requires UseDto.Valid(request) && WellFormed(s)
    ensures WellFormed(UseBalanceEndpoint(s, request, useStamp, failStamp).store)
  {
  }

  /** The failure-recording call the cancel endpoint makes, with its arguments. */
  datatype FailureRecording = FailureRecording(accountNumber: string, amount: Long)

  /** What the cancel endpoint returned or threw, and the failure-recording call it made, if any. */
  datatype CancelReply = CancelReply(result: Result<CancelDto.Response, Exception>, recorded: Option<FailureRecording>)

  /**
   * The cancel endpoint, for a request that passed validation. `cancelled`
   * is what the service's cancelBalance returned or threw, and `recording`
   * what its saveFailedCancelTransaction does when called.
   */
  function CancelBalanceEndpoint(request: CancelDto.Request, cancelled: Result<Transaction, Exception>,
                                 recording: Outcome<Exception>): CancelReply
    requires CancelDto.Valid(request)
  {
    if cancelled.Success? then
      CancelReply(Success(CancelDto.From(cancelled.value)), None)
    else if cancelled.error.AccountException? then
      CancelReply(Failure(Rethrown(cancelled.error, recording)),
                  Some(FailureRecording(request.accountNumber.value, request.amount.value)))
    else
      CancelReply(Failure(cancelled.error), None)
  }

  /**
   * Only an AccountException makes the cancel endpoint record a failure,
   * always with the request's account number and amount; it then rethrows
   * it unless the recording threw. Anything else passes through untouched.
   */
  lemma CancelEndpointRecordsOnlyAccountExceptions(request: CancelDto.Request, cancelled: Result<Transaction, Exception>,
                                                   recording: Outcome<Exception>)
    requires CancelDto.Valid(request)
    ensures var r := CancelBalanceEndpoint(request, cancelled, recording);
      && (r.recorded.Some? <==> cancelled.Failure? && cancelled.error.AccountException?)
      && (r.recorded.Some? ==>
            r.recorded.value == FailureRecording(request.accountNumber.value, request.amount.value))
      && (cancelled.Success? ==> r.result == Success(CancelDto.From(cancelled.value)))
      && (cancelled.Failure? && cancelled.error.AccountException? ==>
            r.result == Failure(if recording.Fail? then recording.error else cancelled.error))
      && (cancelled.Failure? && !cancelled.error.AccountException? ==> r.result == Failure(cancelled.error))
  {
  }

  class TransactionController {
    const service: TransactionService

    constructor (service: TransactionService)
      ensures this.service == service
    {
      this.service := service;
    }

    method UseBalance(request: UseDto.Request, useStamp: Stamp, failStamp: Stamp)
      returns (r: Result<UseDto.Response, Exception>)
      requires UseDto.Valid(request)
      modifies service
      ensures Reply(service.Model(), r) == UseBalanceEndpoint(old(service.Model()), request, useStamp, failStamp)
    {
      var n, amount := request.accountNumber.value, request.amount.value;
      var used := service.UseBalance(request.userId.value, n, amount, useStamp);
      if used.Success? {
        return Success(UseDto.From(used.value));
      }
      var recording := service.SaveFailedUseTransaction(n, amount, failStamp);
      var thrown := if recording.Fail? then Fail(AccountException(recording.error)) else Pass;
      return Failure(Rethrown(AccountException(used.error), thrown));
    }
  }
}
