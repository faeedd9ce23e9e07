# Fund escrow ledger in Dafny

This project models the fund-escrow ledger of the CondoFund repository. In that
ledger an authority locks a payment for a proposal until delivery is verified.
The payment is then released to the vendor or refunded to the contribution
manager. The whole of that logic lives in the `FundEscrowMock` class of
`tests/FundEscrow.test.ts`. It is a deterministic state machine over:

- a configuration: the next escrow ID, the cap on escrows, the creation fee and
  the admin principal;
- a map of escrow records, keyed by dense zero-based IDs;
- a map of last-update audit records;
- an append-only log of transfer requests.

Every operation runs an ordered list of guards and returns the error of the
first guard that fails. It changes state and requests transfers only after all
of its guards pass.

## Layout

- `escrow_types.dfy` (module `EscrowTypes`): the error kinds with their numeric
  codes 100 to 124, plus `Result`, `Option`, status, verification method, the
  escrow record, the audit record and the transfer request.
- `guards.dfy` (module `Guards`): `FirstFailure`, the meaning of "ordered guards,
  first failure wins", proved about any list of guards.
- `ledger.dfy` (module `Ledger`): the ledger as a value (`State`). It has one
  function per operation, from the state before a call to the state after it
  and the returned result. The caller and the block height are parameters.
  Each operation's contract gives the success condition in both directions,
  the error precedence, "no change on failure", the exact new records, the exact
  transfers appended and what stays unchanged.
- `ledger_invariants.dfy` (module `LedgerInvariants`): the ledger invariant and
  its preservation by every operation and by any sequence of calls. It also
  proves monotonic, append-only evolution, frozen terminal records, and that
  the counter equals the number of records.
- `fund_escrow.dfy` (module `FundEscrow`): class `FundEscrowMock`. Its fields
  are the source's fields, and its methods update them in place with the
  source's early-return guard chains. Each method's `modifies` clause names only
  the fields the source method assigns. Its `ensures` tie the new fields and
  the result to the `Ledger` function of the old fields, and preserve the
  ledger invariant `Valid()`.
- `scenarios.dfy` (module `Scenarios`): the test file's scenarios, stated as
  lemmas over the value model. One of them is also driven through the class.

Modelling choices:

- The caller identity and block height are fields of the class, as in the
  source, where the tests assign them before a call. In `Ledger` they are
  explicit inputs of each call.
- Amounts, heights, quorum and counts are unbounded `int`s. A string's length
  is `|s|`.
- Escrow status is a datatype (`Locked`, `Released`, `Refunded`) rather than
  the source's strings `"locked"`, `"released"` and `"refunded"`.
- The record stores the verification method as a datatype, parsed from the
  caller's string. `ParseVerificationMethod` and `MethodName` are proved
  inverse on the three accepted names.
- `verifier`, `oracle` and `refundReason` are `Option`s. Creation always
  stores the oracle, never a verifier, and no refund reason.
- IDs passed to update, release and refund are `int`, so a negative ID reports
  EscrowNotFound, as a missing map key does in the source.

Two facts about the code that a reader might not expect:

- The cap is not a global invariant. `setMaxEscrows` may lower it below the
  counter (tests/FundEscrow.test.ts:104-109), so `nextEscrowId <= maxEscrows`
  holds only right after a successful create (see `Ledger.CreateEscrow` and
  `LedgerInvariants.CapMayFallBelowCounter`).
- A zero fee still produces a zero-amount fee transfer
  (tests/FundEscrow.test.ts:140), so the invariant states that transfer
  amounts are non-negative, not positive (`Scenarios.ZeroFeeTransferEmitted`).

## Model

| member | source | states |
|---|---|---|
| `EscrowTypes.Code` | tests/FundEscrow.test.ts:4-28 | every error kind has a code in 100..124, and decoding that code gives the kind back |
| `EscrowTypes.FromCode` | tests/FundEscrow.test.ts:4-28 | exactly the codes 100..124 name an error kind |
| `EscrowTypes.CodeInjective` | tests/FundEscrow.test.ts:4-28 | distinct error kinds have distinct codes |
| `EscrowTypes.FromCodeRoundTrip` | tests/FundEscrow.test.ts:4-28 | every known code decodes to the kind whose code it is |
| `EscrowTypes.ParseVerificationMethod` | tests/FundEscrow.test.ts:136 | exactly "oracle", "multisig" and "vote" are accepted, and the parsed method's name is the input |
| `EscrowTypes.MethodNameRoundTrip` | tests/FundEscrow.test.ts:136 | parsing a method's name gives the method back |
| `Guards.FirstFailure` | tests/FundEscrow.test.ts:129-138 | no error iff every guard holds; otherwise the error of a failing guard all of whose predecessors hold |
| `Guards.FirstFailureAt` | tests/FundEscrow.test.ts:129-138 | when guard k fails and all before it hold, guard k's error is reported |
| `Ledger.CreateCheckIsFirstFailure` | tests/FundEscrow.test.ts:129-138 | create's early returns report the first failing guard, in the order cap, proposal, amount, vendor, deadline, quorum, description, method, multisig count, oracle; no error iff all ten checks hold |
| `Ledger.CreateEscrow` | tests/FundEscrow.test.ts:118-162 | succeeds iff all ten checks hold; on failure returns the first failing check's error and changes nothing; on success returns the old counter, increments it by one, leaves the counter at or below the cap, stores a locked record locked at the current height with no verifier and no refund reason and every other field from the arguments, touches no other record, and appends exactly (fee, caller to admin) then (amount, caller to contract) using the fee in force |
| `Ledger.UpdateCheckIsFirstFailure` | tests/FundEscrow.test.ts:169-174 | update's early returns report the first failing guard in the order not found, not admin, amount, deadline, not locked; no error iff all hold |
| `Ledger.UpdateEscrow` | tests/FundEscrow.test.ts:168-189 | succeeds iff the record exists, the caller is admin, the amount is positive, the deadline is after the current height and the record is locked; on failure nothing changes; on success only amount and deadline of that record change, the audit entry for that ID becomes exactly (amount, deadline, height, caller), other records and audit entries, counter, config and transfer log are unchanged |
| `Ledger.ReleaseCheckIsFirstFailure` | tests/FundEscrow.test.ts:192-196 | release's early returns report the first failing guard in the order not found, not locked (FundsReleased), expired, not verified; no error iff all hold |
| `Ledger.VerifyAndRelease` | tests/FundEscrow.test.ts:191-202 | succeeds iff the record exists, is locked, the height is before the deadline and verified is true, whoever calls; on failure nothing changes; on success the record's status becomes released and nothing else about it changes, and exactly one transfer (amount, contract to vendor) is appended |
| `Ledger.RefundCheckIsFirstFailure` | tests/FundEscrow.test.ts:205-209 | refund's early returns report the first failing guard in the order not found, not admin, not locked (FundsReleased), reason length outside 1..100; no error iff all hold |
| `Ledger.RefundEscrow` | tests/FundEscrow.test.ts:204-215 | succeeds iff the record exists, the caller is admin, the record is locked and the reason has 1..100 characters; on failure nothing changes; on success status becomes refunded, the reason is recorded, and exactly one transfer (amount, contract to contribution-manager) is appended |
| `Ledger.SetAdminPrincipal` | tests/FundEscrow.test.ts:98-102 | succeeds iff the caller is admin, otherwise NotAuthorized with no change; on success only the admin changes |
| `Ledger.SetMaxEscrows` | tests/FundEscrow.test.ts:104-109 | succeeds iff the caller is admin and the value is positive; errors NotAuthorized then InvalidUpdateParam; on success only the cap changes |
| `Ledger.SetEscrowFee` | tests/FundEscrow.test.ts:111-116 | succeeds iff the caller is admin and the value is non-negative; errors NotAuthorized then InvalidUpdateParam; on success only the fee changes |
| `LedgerInvariants.InitialInv` | tests/FundEscrow.test.ts:83-96 | the reset state satisfies the ledger invariant |
| `LedgerInvariants.CreatePreservesInv` | tests/FundEscrow.test.ts:140-160 | create keeps IDs dense, records well formed, audit entries in agreement and transfer amounts non-negative |
| `LedgerInvariants.UpdatePreservesInv` | tests/FundEscrow.test.ts:176-187 | update keeps the invariant, including audit entry agreeing with the record's amount and deadline |
| `LedgerInvariants.ReleasePreservesInv` | tests/FundEscrow.test.ts:198-200 | release keeps the invariant |
| `LedgerInvariants.RefundPreservesInv` | tests/FundEscrow.test.ts:211-213 | refund keeps the invariant, including refund reason present exactly on refunded records |
| `LedgerInvariants.SettersPreserveInv` | tests/FundEscrow.test.ts:98-116 | the admin setters keep the cap positive and the fee non-negative |
| `LedgerInvariants.ApplyPreservesInv` | tests/FundEscrow.test.ts:98-215 | any single operation keeps the invariant |
| `LedgerInvariants.RunPreservesInv` | tests/FundEscrow.test.ts:98-215 | any sequence of operations keeps the invariant |
| `LedgerInvariants.ReachableInv` | tests/FundEscrow.test.ts:83-215 | every state reached from a reset ledger has escrow IDs exactly 0..nextEscrowId-1 and the rest of the invariant |
| `LedgerInvariants.ApplyEvolves` | tests/FundEscrow.test.ts:143-213 | one operation never lowers the counter, never removes a record, only appends to the transfer log, keeps the fields fixed at creation, and leaves released or refunded records unchanged |
| `LedgerInvariants.RunEvolves` | tests/FundEscrow.test.ts:143-213 | the same holds across any sequence of operations |
| `LedgerInvariants.TerminalRecordsAreFrozen` | tests/FundEscrow.test.ts:168-215 | a released or refunded record keeps its value through any later calls |
| `LedgerInvariants.TerminalRejectsOperations` | tests/FundEscrow.test.ts:168-215 | on a released or refunded record, release fails with FundsReleased, refund fails with FundsReleased for the admin and NotAuthorized otherwise, and update fails, with UpdateNotAllowed when an admin passes a positive amount and a future deadline, each leaving the state unchanged |
| `LedgerInvariants.CountIsNumberOfEscrows` | tests/FundEscrow.test.ts:159-160 | under the invariant the counter equals the number of records |
| `LedgerInvariants.CapMayFallBelowCounter` | tests/FundEscrow.test.ts:104-109 | after two creates, the admin may set the cap to 1, giving a valid state where the counter exceeds the cap |
| `FundEscrow.FundEscrowMock.constructor` | tests/FundEscrow.test.ts:79-81 | a new ledger is in the reset state |
| `FundEscrow.FundEscrowMock.Reset` | tests/FundEscrow.test.ts:83-96 | every field returns to its initial value: counter 0, cap 1000, fee 500, admin ST1ADMIN, empty maps and log, height 0, caller ST1TEST |
| `FundEscrow.FundEscrowMock.SetAdminPrincipal` | tests/FundEscrow.test.ts:98-102 | result and new fields are those of `Ledger.SetAdminPrincipal`; only the admin field may change; the invariant is kept |
| `FundEscrow.FundEscrowMock.SetMaxEscrows` | tests/FundEscrow.test.ts:104-109 | result and new fields are those of `Ledger.SetMaxEscrows`; only the cap may change; the invariant is kept |
| `FundEscrow.FundEscrowMock.SetEscrowFee` | tests/FundEscrow.test.ts:111-116 | result and new fields are those of `Ledger.SetEscrowFee`; only the fee may change; the invariant is kept |
| `FundEscrow.FundEscrowMock.CreateEscrow` | tests/FundEscrow.test.ts:118-162 | result and new fields are those of `Ledger.CreateEscrow`; only escrows, counter and log may change; the invariant is kept |
| `FundEscrow.FundEscrowMock.GetEscrow` | tests/FundEscrow.test.ts:164-166 | returns the stored record; under the invariant a record exists exactly for IDs 0..nextEscrowId-1, and it is well formed |
| `FundEscrow.FundEscrowMock.UpdateEscrow` | tests/FundEscrow.test.ts:168-189 | result and new fields are those of `Ledger.UpdateEscrow`; only escrows and audit entries may change; the invariant is kept |
| `FundEscrow.FundEscrowMock.VerifyAndRelease` | tests/FundEscrow.test.ts:191-202 | result and new fields are those of `Ledger.VerifyAndRelease`; only escrows and log may change; the invariant is kept |
| `FundEscrow.FundEscrowMock.RefundEscrow` | tests/FundEscrow.test.ts:204-215 | result and new fields are those of `Ledger.RefundEscrow`; only escrows and log may change; the invariant is kept |
| `FundEscrow.FundEscrowMock.GetEscrowCount` | tests/FundEscrow.test.ts:217-219 | returns the counter, which under the invariant is the number of records |
| `Scenarios.CreateScenario` | tests/FundEscrow.test.ts:230-260 | the roof-repair create on a fresh ledger returns ID 0, stores the expected locked record and requests (500, ST1TEST to ST1ADMIN) then (1000, ST1TEST to contract) |
| `Scenarios.CreateRejectionScenarios` | tests/FundEscrow.test.ts:262-405 | each of the nine argument checks, broken alone, reports its own error |
| `Scenarios.CapCheckedFirst` | tests/FundEscrow.test.ts:129 | at the cap, create fails with MaxEscrowsExceeded whatever the other arguments, and changes nothing |
| `Scenarios.UpdateScenarios` | tests/FundEscrow.test.ts:407-454 | the admin's update sets amount 1500, deadline 150 and the audit entry; a non-admin gets NotAuthorized; ID 99 on a fresh ledger gets EscrowNotFound |
| `Scenarios.ReleaseScenarios` | tests/FundEscrow.test.ts:456-528 | release at height 50 succeeds and pays the vendor; after a release at height 0, a second release and an admin's refund fail with FundsReleased; release at 101 is expired; release unverified fails |
| `Scenarios.RefundScenarios` | tests/FundEscrow.test.ts:530-604 | the admin's refund records the reason and pays the contribution manager; a non-admin gets NotAuthorized; an empty reason fails and the record stays locked |
| `Scenarios.CountScenario` | tests/FundEscrow.test.ts:606-632 | a second create returns ID 1 and leaves the count at 2 |
| `Scenarios.FeeScenario` | tests/FundEscrow.test.ts:634-653 | after the admin sets the fee to 1000, the next create's first transfer is (1000, ST1TEST to ST1ADMIN) |
| `Scenarios.ZeroFeeTransferEmitted` | tests/FundEscrow.test.ts:140 | with a zero fee, create still requests a transfer of zero to the admin |
| `Scenarios.RoofRepairOnObject` | tests/FundEscrow.test.ts:456-493 | through the class: create, release at 50 and release again give Ok(true) then FundsReleased, a released record and the three expected transfers |

## Left out

- The test harness itself (`describe`, `it`, `expect`, tests/FundEscrow.test.ts:222-661): its scenarios are restated as lemmas in `scenarios.dfy`; the harness is not modelled.
- The Clarity-value parsing test (tests/FundEscrow.test.ts:655-660): it only calls into `@stacks/transactions`, which is not part of this model.
- `stxBalances` (tests/FundEscrow.test.ts:76, 94): initialised on reset but never read or written by any operation, so it carries no behaviour; actual settlement of transfers is external.
- The on-chain contract that the class stands in for is not part of this model; nothing beyond the class's behaviour is modelled.
- Multisig, oracle and vote verification: `quorum`, `multisigCount` and `oracle` are validated and stored but never consulted; `verified` is an opaque boolean input.
- JavaScript number behaviour (fractions, NaN, infinities, precision above 2^53) and UTF-16 string lengths: numbers are unbounded integers and lengths are sequence lengths.
- Non-string or missing arguments (`null`, `undefined`): every argument is assumed to have its declared type.
- Reset is not one of the operations in `LedgerInvariants.Op`: it clears the transfer log, so the "log only grows" property holds for sequences of calls between resets.
- Aliasing of stored records: `getEscrow` in the source hands out the stored object itself, so a caller could mutate a record in place; the model's records are values and only the ledger's operations change them.
