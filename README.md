# Balance-use ledger of the Account service, in Dafny

This project models the core of the account service's balance ledger: the
"use" (debit) operation of `TransactionService`, the recording of a failed
attempt, the construction of transaction records, the controller's
try / record-failure / rethrow composition for the use and cancel endpoints,
and the field constraints and response projection of the `UseBalance` and
`CancelBalance` request/response types.

The state is three stores: users by id, accounts by account number
(owner id, status `IN_USE`/`UNREGISTERED`, balance), and an append-only log
of transaction records (type `USE`/`CANCEL`, result `S`/`F`, account number,
amount, balance snapshot, id, time).

Layout:

- `wrappers.dfy` (`Wrappers`): `Option`, `Result` (a value or the exception
  thrown instead) and `Outcome` (a `void` call that returns or throws).
- `domain.dfy` (`Domain`): Java's `long` as the 64-bit subset type `Long`,
  the error codes, exceptions, enumerations, and the account, user and
  transaction records. `Stamp` is what one record takes from outside: the
  text of a random UUID and a clock reading.
- `transaction_service.dfy` (`Service`): the stores as a `Store` value; pure
  functions `UseStep` and `FailedUseStep` that specify one call each; the
  guard chain `ValidateUserBalance`; record construction; and the class
  `TransactionService`, whose fields are the three stores and whose methods
  `UseBalance`, `SaveFailedUseTransaction` and `SaveAndGetTransaction` update
  them in place and are proved to follow the pure functions.
- `ledger_history.dfy` (`LedgerHistory`): runs of service calls; the log
  only grows, no balance becomes negative, and every account's balance is
  its starting balance minus the successful uses recorded for it since.
- `use_balance.dfy`, `cancel_balance.dfy` (`UseBalance`, `CancelBalance`):
  request validity and `Response.from`.
- `transaction_controller.dfy` (`Controller`): the class
  `TransactionController` with the stateful use endpoint, its specification
  `UseBalanceEndpoint`, and the cancel endpoint's composition
  `CancelBalanceEndpoint`.

Modelling choices:

- `account.useBalance(amount)` (the `Account` entity is not part of this model)
  is `balance - amount`, as the service test expects (10000 - 2000 gives a
  snapshot of 8000).
- The service never checks that `amount` is positive; it gets that only from
  the request constraints (amount at least 10). The debit therefore requires
  `amount > 0` rather than inventing a check.
- The `Account` entity that the service updates in place is a value in the
  accounts map, and the debit replaces its entry. A record names its account
  by the account's own number instead of holding a reference to the entity.
- `TransactionDto.fromEntity` as written builds a DTO with no fields. The
  responses are therefore modelled from the record that was saved, which is
  what the controller tests' stubbed DTOs carry.
- `@NotBlank` is read as `String.trim()` reads it: a value is blank when every
  character is at or below U+0020. A Unicode space above U+0020, such as
  U+2003, therefore makes an id not blank.

## Model

| member | source | states |
|---|---|---|
| `Service.ValidateUserBalance` | src/main/java/com/example/account/service/TransactionService.java:44-54 | passes exactly when the user's id equals the account owner's id, the status is IN_USE and amount <= balance; otherwise fails with the first failing check's code, in the order unmatch, unregistered, exceed |
| `Service.UseStep` | src/main/java/com/example/account/service/TransactionService.java:34-42 | a failed use leaves users, accounts and log unchanged; a successful one needs 0 < amount <= balance, lowers that account by exactly amount, changes no other account, and appends exactly one USE/S record whose snapshot is the new balance |
| `Service.UseChecksInOrder` | src/main/java/com/example/account/service/TransactionService.java:35-53 | each error code is returned exactly when every earlier check passes and its own fails (user, account, ownership, status, balance); success exactly when all pass |
| `Service.OwnershipIsUserIdEquality` | src/main/java/com/example/account/service/TransactionService.java:45-47 | with users stored under their own ids, USER_ACCOUNT_UNMATCH is returned exactly when the account owner's id differs from userId |
| `Service.WholeBalanceCanBeUsed` | src/main/java/com/example/account/service/TransactionService.java:51-53 | an amount equal to the balance is accepted (strict comparison) and leaves balance and snapshot at zero |
| `Service.UseKeepsWellFormed` | src/main/java/com/example/account/service/TransactionService.java:38-41 | a use never makes a balance negative and keeps accounts under their own numbers |
| `Service.FailedUseStep` | src/main/java/com/example/account/service/TransactionService.java:57-62 | fails with ACCOUNT_NOT_FOUND exactly when the account is unknown, then changing nothing; otherwise appends exactly one USE/F record with the given amount and the current balance as snapshot, and changes no balance |
| `Service.FailedUseKeepsWellFormed` | src/main/java/com/example/account/service/TransactionService.java:57-62 | recording a failed use keeps every balance non-negative |
| `Service.NewTransaction` | src/main/java/com/example/account/service/TransactionService.java:66-74 | defines the record saveAndGetTransaction builds: type USE, the given result type, the account's number, the amount, the account's balance as snapshot, the UUID text without dashes as id, the clock reading as time |
| `Service.SaveAndGetStep` | src/main/java/com/example/account/service/TransactionService.java:64-76 | appends exactly one record and returns it; its type is USE whatever the result type, it names the given account, its snapshot is the account's balance at that moment, its id is the UUID text without dashes and its time is the clock reading |
| `Service.RemoveDashes` | src/main/java/com/example/account/service/TransactionService.java:72 | the id text contains no '-', consists of characters of the UUID text, is no longer than it, and equals it when it has no dash |
| `Service.RemoveDashesAppend` | src/main/java/com/example/account/service/TransactionService.java:72 | removing dashes distributes over concatenation |
| `Service.TransactionIdFromUuid` | src/main/java/com/example/account/service/TransactionService.java:72 | for the 8-4-4-4-12 text of a UUID, the record id is exactly 32 lower-case hexadecimal digits |
| `Service.TransactionService.constructor` | src/main/java/com/example/account/service/TransactionService.java:26-31 | the service starts over the given user, account and transaction stores |
| `Service.TransactionService.UseBalance` | src/main/java/com/example/account/service/TransactionService.java:33-42 | the in-place debit leaves the stores and the result exactly as `UseStep` specifies |
| `Service.TransactionService.SaveFailedUseTransaction` | src/main/java/com/example/account/service/TransactionService.java:57-62 | the stores afterwards are those of `FailedUseStep`; it throws exactly when that fails, with the same code |
| `Service.TransactionService.SaveAndGetTransaction` | src/main/java/com/example/account/service/TransactionService.java:64-76 | the stores afterwards and the record returned are exactly those of `SaveAndGetStep` |
| `LedgerHistory.ApplyAppendsOnly` | src/main/java/com/example/account/service/TransactionService.java:64-76 | one call keeps users and account numbers, and adds at most one record after the old log |
| `LedgerHistory.RunAppendsOnly` | src/main/java/com/example/account/service/TransactionService.java:64-76 | after any sequence of calls the old log is a prefix of the new one and users and account numbers are unchanged |
| `LedgerHistory.RunKeepsWellFormed` | src/main/java/com/example/account/service/TransactionService.java:34-62 | no sequence of use and failed-use calls makes any balance negative |
| `LedgerHistory.ApplyAudit` | src/main/java/com/example/account/service/TransactionService.java:39-41 | one call lowers an account's balance by exactly the amounts of the USE/S records it appends for that account |
| `LedgerHistory.DebitedAppend` | src/main/java/com/example/account/service/TransactionService.java:64-76 | the recorded debits of two consecutive log segments add up |
| `LedgerHistory.RunAudit` | src/main/java/com/example/account/service/TransactionService.java:33-76 | after any sequence of calls an account's balance equals its starting balance minus the amounts of the USE/S records appended for it; failure records never count |
| `UseBalance.Valid` | src/main/java/com/example/account/dto/UseBalance.java:19-30 | defines acceptance: user id present and at least 1, account number present with exactly ten characters, amount present and within [10, 1,000,000,000] |
| `UseBalance.From` | src/main/java/com/example/account/dto/UseBalance.java:48-56 | defines the response as the record's account number, result type, id, amount and time |
| `UseBalance.ValidRequestIsPositive` | src/main/java/com/example/account/dto/UseBalance.java:19-30 | a valid use request has a user id of at least 1 and a positive amount, so `UseBalanceEndpoint` meets the debit's precondition |
| `UseBalance.AcceptedBoundaries` | src/main/java/com/example/account/dto/UseBalance.java:19-30 | amounts 10 and 1,000,000,000 are accepted, 9 and 1,000,000,001 rejected; user id 0, a null field and a 9-character account number are rejected; non-digit account numbers are accepted |
| `UseBalance.FromCopiesExactlyFiveFields` | src/main/java/com/example/account/dto/UseBalance.java:38-57 | two records give the same response exactly when account number, result type, id, amount and time agree: those are copied, type and snapshot are dropped |
| `CancelBalance.Valid` | src/main/java/com/example/account/dto/CancelBalance.java:16-26 | defines acceptance: transaction id not blank, account number present with exactly ten characters, amount present and within [10, 1,000,000,000] |
| `CancelBalance.NotBlank` | src/main/java/com/example/account/dto/CancelBalance.java:16-17 | defines `@NotBlank`: present, with at least one character above U+0020 |
| `CancelBalance.Trim` | src/main/java/com/example/account/dto/CancelBalance.java:16-17 | `String.trim()`: the result is no longer than the text and, when non-empty, starts and ends above U+0020 |
| `CancelBalance.TrimStart` | src/main/java/com/example/account/dto/CancelBalance.java:16-17 | the result is a suffix of the text that starts above U+0020 when non-empty, and every dropped leading character is at or below U+0020 |
| `CancelBalance.TrimEnd` | src/main/java/com/example/account/dto/CancelBalance.java:16-17 | the result is a prefix of the text that ends above U+0020 when non-empty, and every dropped trailing character is at or below U+0020 |
| `CancelBalance.TrimStartFindsVisible` | src/main/java/com/example/account/dto/CancelBalance.java:16-17 | trimming the start leaves something exactly when some character is above U+0020 |
| `CancelBalance.TrimEndKeepsVisibleHead` | src/main/java/com/example/account/dto/CancelBalance.java:16-17 | trimming the end of a text whose first character is above U+0020 leaves it non-empty |
| `CancelBalance.NotBlankIsNonEmptyTrim` | src/main/java/com/example/account/dto/CancelBalance.java:16-17 | for every string, the transaction id is not blank exactly when `String.trim()` leaves it non-empty, i.e. blank means every character is at or below U+0020 |
| `CancelBalance.BlankIds` | src/main/java/com/example/account/dto/CancelBalance.java:16-17 | a null, empty or all-at-or-below-U+0020 id is blank; one containing `x` or U+2003 is not |
| `CancelBalance.From` | src/main/java/com/example/account/dto/CancelBalance.java:44-52 | defines the cancel response as the record's account number, result type, id, amount and time |
| `CancelBalance.FromCopiesExactlyFiveFields` | src/main/java/com/example/account/dto/CancelBalance.java:34-53 | two records give the same cancel response exactly when the five copied fields agree; type and snapshot are dropped |
| `Controller.UseBalanceEndpoint` | src/main/java/com/example/account/controller/TransactionController.java:25-36 | the use endpoint succeeds exactly when the service use succeeds, and otherwise throws only an AccountException: the service's, or the recording call's when that one throws |
| `Controller.CancelBalanceEndpoint` | src/main/java/com/example/account/controller/TransactionController.java:38-49 | defines the cancel endpoint over the service's outcomes: answer from the record on success, record a failure and rethrow on an AccountException, pass anything else through |
| `Controller.UseEndpointSuccess` | src/main/java/com/example/account/controller/TransactionController.java:28-29 | when the service use succeeds, the endpoint answers from its USE/S record and writes no failure record |
| `Controller.RejectedUseRecordsOneFailure` | src/main/java/com/example/account/controller/TransactionController.java:31-34 | a rejected use of an existing account leaves all balances unchanged, appends exactly one USE/F record with the request's amount and the current balance, and rethrows the service's error |
| `Controller.UnknownAccountMasksError` | src/main/java/com/example/account/controller/TransactionController.java:31-34 | with an unknown account number nothing is appended and ACCOUNT_NOT_FOUND from the recording call replaces the service's error, e.g. USER_NOT_FOUND |
| `Controller.UseEndpointIsRun` | src/main/java/com/example/account/controller/TransactionController.java:25-36 | the use endpoint is the service use, followed by the failure recording only when the use failed |
| `Controller.UseEndpointKeepsWellFormed` | src/main/java/com/example/account/controller/TransactionController.java:25-36 | the use endpoint never makes a balance negative |
| `Controller.CancelEndpointRecordsOnlyAccountExceptions` | src/main/java/com/example/account/controller/TransactionController.java:38-49 | the cancel endpoint calls the failure recording exactly on an AccountException, with the request's account number and amount, then rethrows it unless the recording threw; any other exception passes through with no recording; success answers from the record |
| `Controller.TransactionController.constructor` | src/main/java/com/example/account/controller/TransactionController.java:15-19 | the controller drives the given service |
| `Controller.TransactionController.UseBalance` | src/main/java/com/example/account/controller/TransactionController.java:25-36 | the service's stores and the endpoint's result are exactly those `UseBalanceEndpoint` specifies |

## Left out

- Cancel, query and failed-cancel service logic: `cancelBalance`, `queryTransaction` and `saveFailedCancelTransaction` are not defined in `TransactionService.java`, and `ErrorCode.java` has no codes for them. The cancel endpoint therefore takes their outcomes as parameters and only its own composition is modelled; the use-then-cancel round trip is not modelled.
- `Controller.CancelBalanceEndpoint`: the cancel endpoint's state changes are those of the service's cancel operations, which are not part of this model, so it is a function of their outcomes rather than a method on the controller.
- The query endpoint, `QueryTransactionResponse.from` and `TransactionDto.fromEntity`: the first two are plain lookups and field copies. As written, `fromEntity` returns an empty DTO, so the model answers from the saved record instead.
- `Service.UseStep`, `Service.TransactionService.UseBalance`: require `amount > 0`. The service does not check this; positivity comes only from the request constraints.
- Use-path exceptions other than `AccountException`: a persistence failure from `transactionRepository.save` (TransactionService.java:65) or a null account owner (TransactionService.java:45) would raise another exception, which the controller passes through without recording a failure. The model treats saves as always succeeding and every account as owned, so on the use endpoint it raises only `AccountException`; the pass-through branch is modelled on the cancel endpoint only.
- `@Transactional` boundaries, concurrent requests and row locking: every call is modelled as one atomic step, applied one after another.
- `UUID.randomUUID()` and `LocalDateTime.now()`: the UUID text and the clock reading are parameters (`Stamp`). Uniqueness of transaction ids is not proved, since it depends on randomness.
- JPA repositories: they are maps and an append-only sequence. `Account.useBalance` is not part of this model and is taken to subtract the amount.
- Account creation and closure, the ten-accounts-per-user limit, and user registration (`AccountService` is not part of this model).
- `AccountUser` name and timestamps, and the `ErrorCode` description strings: they play no part in the ledger.
- Logging, HTTP routing, JSON mapping and the Bean Validation machinery: only the meaning of each constraint is modelled.
- `UseBalance.Valid`, `CancelBalance.Valid`: `@Size(min = 10, max = 10)` (UseBalance.java:24, CancelBalance.java:20) counts UTF-16 code units, while the model counts the Unicode scalar values of a `string`. They agree on account numbers within the Basic Multilingual Plane; one holding a character above U+FFFF is counted differently (an emoji plus eight digits is ten code units, accepted by Java and rejected here).
- A null account status is not modelled. It would fail the `IN_USE` check just as `UNREGISTERED` does.
