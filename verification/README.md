# PayEra: verified model

PayEra pays Indian merchants from crypto wallets and rewards the payer in STAR. This
project models the parts of it that keep books, and proves what those books promise.

* **The four Soroban contracts as one system.** `StarToken`, `RewardEngine`,
  `PaymentEngine` and `MerchantRegistry` are state machines: `Check` says what a call
  answers, `Apply` what an accepted call leaves behind, `Step` puts the two together.
  The modules ending in `Contract` hold one class per contract, with one field per
  storage key and the entry points as methods that check and write step by step; each
  is proved against its state machine. `RewardsOnToken` and `PayEra` compose the
  machines with the nested calls the contracts make.
* **Rules and runs.** The lemmas named `AcceptedIff` say of each contract exactly which
  calls it accepts, one aspect at a time and apart from the order of the checks;
  `StarTokenRules`, `StarTokenRuns`, `PaymentRuns`, `PayEraTheorems` and `AdminHandoff`
  prove what holds over every run: any number of calls, by anyone, in any order, with any
  ledger sequence numbers.
* **The fiat ramps.** `Ramps` and `RampsService` model the ramp rows and their event
  trail, `RampPoller` the reconciliation poller.
* **Small computations.** `AmlScreening` is the deterministic screening hash,
  `TaxReport` the yearly report, and the spend reward is in `RewardEngine`.

`Host` models what the Soroban host provides and `Sums` totals over maps.

## How the host is modelled

* A call carries an `Env`: the set of addresses that signed it, the contract that makes
  the call directly, if any, and the ledger sequence. `require_auth` passes for a
  signer and for the direct caller. A transaction comes from outside when it carries
  neither engine's authority; the engine addresses are authorised only in the calls the
  engines make.
* A failing call is rolled back with everything it called. Only the token writes before
  it may still fail, so only its class has the host's snapshot and restore; the other
  three are proved to leave their storage alone when they fail. A callee that fails
  makes its caller trap, except for the payment engine's `try_issue_spend_reward`.
* Amounts are 128-bit integers with checked operations, written out as such.
* The addresses a contract calls are fixed at deployment. This is an assumption of the
  cross-contract theorems.

## Findings

* `README.md:231` of the repository says that a share of transfers is burned. `transfer`
  (`contracts/star-token/src/lib.rs:518-537`) charges no fee; only `burn_fee` does. The
  model follows the code (`StarTokenRuns.TransferChargesNoFee`).
* The log does not tell who minted when the admin mints to a minter's own address: both
  kinds of mint name that address as account and counterparty
  (`StarTokenRuns.MintOriginInvisible`, with two runs of different origin and the same log
  in `SameLogExample`). Over a run the log gives what a minter minted exactly when the
  admin never minted to it (`LogGivesMinterIff`). What was minted in the reward engine's
  name is therefore counted on the token calls, not on the events.
* `refreshStatus` is documented (`apps/api/src/ramps/ramps.service.ts:193`) as a no-op on an
  unchanged status. It still writes the poll time and the reported details; the poller's
  fairness depends on that. `Ramps.RefreshNoOpIff` says exactly when it does nothing,
  `Ramps.UnchangedStatusExample` is a reachable state in which it writes.
* A refresh that fails records nothing, not even the time of the poll
  (`RampPoller.FailuresLeaveNoMark`). As long as fewer than twenty ramps fail, every other
  one still gets its turn (`EveryRampPolled`), also when it is others that fail in each pass
  (`PolledDespiteFailures`); twenty failing ramps ahead of it can keep it waiting for any
  number of passes (`TwentyStarve`, at a reachable state `TwentyFirstStarves`), and nothing
  less can (`StarvationIff`).
* A ramp whose provider id is the empty string counts as failing in all of these: the query
  (`ramp-reconciliation.service.ts:42`) selects it, `refreshStatus` (`ramps.service.ts:199`)
  skips it. Such a ramp is reachable (`EmptyIdNeverPolled`), but the unique index on the
  provider id lets in one at most (`OneNameless`).
* `applyStatus` trusts the status its caller passes; `Ramps.ApplyStatusIff` says exactly
  when that keeps the audit trail. `refreshStatus` always meets the condition.

## Model

| member | source | states |
|---|---|---|
| PayEraTheorems.RewardsMatchPayments | contracts/payment-engine/src/lib.rs:442-486 | in every reachable state of the four contracts, payments with a reward and reward records issued by the payment engine correspond one-to-one (reward id, source, recipient, kind Spend, amount = paise/10000*10) and their sums are equal, also for payments that failed later |
| PayEraTheorems.MintsMatchRecords | contracts/reward-engine/src/lib.rs:339-388 | over every run, the STAR minted with the reward engine as minter equals the sum of all reward records: no mint without a record, no record without a mint |
| PayEraTheorems.SettledPaymentCompletes | contracts/payment-engine/src/lib.rs:447-501 | a settled payment of an unpaused engine reaches Completed in two operator calls, from any state of the four contracts; if the inner call failed, reward engine and token are untouched and the reward is 0, otherwise a new matching record exists |
| PayEraTheorems.RewardPaidIff | contracts/payment-engine/src/lib.rs:442-486 | exactly when an accepted issue_reward pays its 10 STAR per full 100 rupees, in terms of the reward engine, the payment and the token; otherwise the payment carries 0 |
| PayEraTheorems.NoPaymentForRejectedMerchant | contracts/payment-engine/src/lib.rs:347-351 | every payment in every reachable state belongs to a merchant that is Approved or Suspended, so never to a Rejected one |
| PayEraTheorems.CreatedForApproved | contracts/payment-engine/src/lib.rs:328-380 | a transaction creates a payment only for a merchant that is Approved at that moment, by an enabled operator who authorises it, in an unpaused engine |
| PayEraTheorems.MerchantWasApproved | contracts/payment-engine/src/lib.rs:347-351 | over every run each payment was created at a moment at which its merchant was Approved |
| PayEraTheorems.SuspendedGetsNoPayment | contracts/payment-engine/src/lib.rs:347-351 | as long as a merchant is suspended, pending, rejected or unknown, no payment is created for it |
| PayEraTheorems.RecordsFixed | contracts/reward-engine/src/lib.rs:359-387 | a reward record never changes and never disappears once written |
| PayEraTheorems.RecordsByEnabledIssuers | contracts/reward-engine/src/lib.rs:350-388 | over every run each reward record was written in an unpaused engine by an issuer who was enabled at that moment and authorised it, itself or through an operator of the payment engine; it is dated with that transaction |
| PayEraTheorems.DisabledIssuersIssueNothing | contracts/reward-engine/src/lib.rs:353-355 | no record is written in the name of an address while it is not an enabled issuer |
| PayEraTheorems.PausedByAdmin | contracts/reward-engine/src/lib.rs:187-213 | each of the four contracts is paused exactly when the last pause or unpause its admins authorised was a pause; none is at deployment |
| PayEraTheorems.TokenIsATokenRun | contracts/reward-engine/src/lib.rs:363-366 | inside the system the token goes through a run of token calls, rolled-back mints left out, so all theorems on token runs apply |
| PayEraTheorems.PaymentsAreAPaymentRun | contracts/payment-engine/src/lib.rs:328-552 | inside the system the payment engine goes through a run of its own, so all theorems on payment runs apply |
| PayEra.Reachable | contracts/payment-engine/src/lib.rs:347-486 | the cross-contract invariant holds in every state reachable by transactions that do not carry the authority of the two engine addresses |
| PayEra.ExecKeeps | contracts/payment-engine/src/lib.rs:328-552 | every single transaction, with its nested calls and rollbacks, keeps the cross-contract invariant |
| RewardsOnToken.MintWithRecord | contracts/reward-engine/src/lib.rs:339-388 | an issue call credits the recipient exactly the amount of the one record it adds, or changes neither contract's money and records |
| RewardsOnToken.RepeatedRewardIgnored | contracts/reward-engine/src/lib.rs:359-361 | a second call with the same reward id is refused and changes neither contract |
| RewardsOnToken.RewardIssuedIff | contracts/reward-engine/src/lib.rs:339-388 | exactly when a reward is issued: unpaused engine, enabled and authorising issuer, new id, positive amount, and a token that mints it; the answer is the promised amount |
| RewardsOnToken.NewRecord | contracts/reward-engine/src/lib.rs:339-388 | a new record names an enabled, authorising issuer and the recipient, source, kind, amount and ledger of its call |
| RewardsOnToken.RolesKept | contracts/reward-engine/src/lib.rs:363-366 | the mints an engine makes change nothing of the token but balances, supply and log |
| StarTokenRuns.SupplyConserved | contracts/star-token/src/lib.rs:401-468 | in every reachable state the balances add up to the supply, none is negative and the supply lies between 0 and the cap of the deployment |
| StarTokenRuns.RunSound | contracts/star-token/src/lib.rs:401-595 | conservation, non-negative allowances and a fee rate of at most 100% hold along any run |
| StarToken.StepSound | contracts/star-token/src/lib.rs:401-595 | every call keeps conservation, including self-transfers, delegated transfers, burns and fee burns |
| StarToken.BalancesWithinSupply | contracts/star-token/src/lib.rs:731-779 | no balance, and no two different balances together, exceed the supply, which is below the cap and the i128 maximum |
| StarTokenRuns.LogRebuildsMoney | contracts/star-token/src/lib.rs:283-303 | folding the events of any run from nothing rebuilds every balance and the supply |
| StarTokenRuns.OneEvent | contracts/star-token/src/lib.rs:283-303 | a call publishes at most one event, and none exactly when it changes nothing |
| StarTokenRuns.MintOriginInvisible | contracts/star-token/src/lib.rs:421-466 | the logs of an admin mint and a minter mint read the same exactly when the minter mints to itself |
| StarTokenRuns.LoggedMintsSplit | contracts/star-token/src/lib.rs:401-468 | over every run the mint events that name an address as account add up to what it minted as a minter plus what the admin minted to it |
| StarTokenRuns.LogGivesMinterIff | contracts/star-token/src/lib.rs:401-468 | so they give a minter's total exactly when no accepted admin mint went to it |
| StarTokenRuns.SameLogExample | contracts/star-token/src/lib.rs:401-468 | two runs from deployment, one by the admin as admin and one as minter, that leave the same token and log |
| StarTokenRuns.TransferChargesNoFee | contracts/star-token/src/lib.rs:518-559 | a transfer moves the whole amount between exactly two accounts and burns nothing |
| StarTokenRuns.SpendingTaken | contracts/star-token/src/lib.rs:796-833 | an accepted spending fits into the allowance, is not late and is taken off it |
| StarTokenRuns.AllowanceAccounted | contracts/star-token/src/lib.rs:475-595 | over any run the remaining allowance and everything spent since the last approval add up to the approved amount, all spent no later than the expiry |
| StarTokenRuns.SpendIffAllowed | contracts/star-token/src/lib.rs:781-833 | the allowance check passes exactly when 0 < amount <= the allowance anyone can read |
| StarTokenRuns.TransferFromIff | contracts/star-token/src/lib.rs:539-559 | the exact condition under which a delegated transfer is accepted |
| StarTokenRuns.ExpiredUntilApproved | contracts/star-token/src/lib.rs:781-833 | an expired allowance reads 0 and is not spent from until the owner approves again |
| StarTokenRuns.OthersKeepAllowance | contracts/star-token/src/lib.rs:475-511 | only an approval by the owner and a spending by the spender touch an allowance |
| StarTokenRuns.FrozenAccountConstant | contracts/star-token/src/lib.rs:753-833 | while an account stays frozen its balance and the allowances it granted are constant, although the allowance is written before the freeze check |
| StarTokenRuns.PausedTokenConstant | contracts/star-token/src/lib.rs:643-649 | while the token stays paused only the pause flag and the log change |
| StarTokenRuns.LossNeedsConsent | contracts/star-token/src/lib.rs:518-595 | a balance goes down only with the owner's authorisation or within an allowance of an authorising spender |
| StarTokenRuns.MintNeedsAuthority | contracts/star-token/src/lib.rs:401-468 | the supply grows only by a mint of the authorising admin or of an enabled, authorising minter in its own name, and never while paused |
| StarTokenRules.AcceptedIff | contracts/star-token/src/lib.rs:152-595 | exactly which of the fifteen calls are accepted, by authority, freeze list, amounts and dates, and what accounts, allowance and cap must bear |
| StarTokenRules.RefusedForReason | contracts/star-token/src/lib.rs:152-595 | every refusal names a reason that is there, and a trap means that the authority is missing |
| StarTokenRules.MoneyMoves | contracts/star-token/src/lib.rs:401-595 | what every accepted call does to each balance and to the supply, to the STAR |
| StarTokenRules.AllowanceNeedsOwner | contracts/star-token/src/lib.rs:475-511 | a readable allowance grows only by an approval its owner authorises, unpaused and not frozen |
| StarTokenRules.SilentNeverLoses | contracts/star-token/src/lib.rs:475-595 | over every run an account that never authorises a call never loses STAR and never has an allowance |
| StarTokenRules.PauseIff | contracts/star-token/src/lib.rs:306-334 | only the admin moves the pause flag, at any time, by pause and unpause |
| StarTokenRules.FeeFollowsConfig | contracts/star-token/src/lib.rs:218-285 | over every run the fee on any amount is the share of the last accepted configuration, and 0 before the first or with fees off |
| StarTokenRules.LogRebuildsGovernment | contracts/star-token/src/lib.rs:152-394 | reading the log of any run rebuilds admin, proposed admin, pause flag, minters, freeze list and fee configuration |
| StarTokenRules.ApprovalsLogged | contracts/star-token/src/lib.rs:475-511 | over every run the log shows every allowance as it was last approved |
| StarTokenRules.EventTells | contracts/star-token/src/lib.rs:152-595 | the event of an accepted call tells what was done, whom it concerns, the other side, the amount or rate, and whether something was switched off |
| StarTokenRules.LogGrows | contracts/star-token/src/lib.rs:90-132 | over every run events are never taken back, and the first names the first admin and the cap |
| StarTokenRuns.FeeTakenExactly | contracts/star-token/src/lib.rs:259-304 | an accepted fee call takes exactly the rounded-down share from payer and supply, and nothing when fees are off |
| StarToken.FeeWithin | contracts/star-token/src/lib.rs:278-285 | the fee is between 0 and the amount |
| StarToken.FeeSplit | contracts/star-token/src/lib.rs:278-285 | fee(a) + fee(b) <= fee(a + b) <= fee(a) + fee(b) + 1 |
| StarTokenContract.Contract.constructor | contracts/star-token/src/lib.rs:90-132 | a deployment with a positive cap starts sound |
| StarTokenContract.Contract.Invoke | contracts/star-token/src/lib.rs:539-595 | a call as the host runs it: the answer and state of the specification, with everything a failing entry point wrote put back |
| StarTokenContract.Contract.SetAdmin | contracts/star-token/src/lib.rs:152-168 | the authorising admin proposes a successor, which becomes the pending admin |
| StarTokenContract.Contract.AcceptAdmin | contracts/star-token/src/lib.rs:174-216 | the pending admin takes office by its own authority; the old admin loses minter and authorised flags unless it succeeds itself, the new one has both |
| StarTokenContract.Contract.SetFeeBurnConfig | contracts/star-token/src/lib.rs:218-248 | the admin stores the fee configuration; more than 10000 basis points are refused |
| StarTokenContract.Contract.BurnFee | contracts/star-token/src/lib.rs:259-304 | answers the fee it burned from the payer: the share of the amount rounded down, 0 when fees are off; refuses when the product overflows 128 bits |
| StarTokenContract.Contract.Pause | contracts/star-token/src/lib.rs:306-319 | the admin sets the pause flag, also when it is set |
| StarTokenContract.Contract.Unpause | contracts/star-token/src/lib.rs:321-334 | the admin clears the pause flag, also while paused |
| StarTokenContract.Contract.SetMinter | contracts/star-token/src/lib.rs:341-368 | the admin sets a minter flag; switching a minter on takes it off the freeze list |
| StarTokenContract.Contract.SetAuthorized | contracts/star-token/src/lib.rs:375-394 | the admin puts an address on the freeze list or takes it off |
| StarTokenContract.Contract.Mint | contracts/star-token/src/lib.rs:401-430 | the admin mints within the cap to an address that is not frozen; errors in the order of the source |
| StarTokenContract.Contract.MintFromMinter | contracts/star-token/src/lib.rs:432-468 | an enabled minter mints within the cap; errors in the order of the source |
| StarTokenContract.Contract.Approve | contracts/star-token/src/lib.rs:475-511 | the owner, who must authorise it, replaces the allowance; a positive one may not be expired already and neither side may be frozen |
| StarTokenContract.Contract.Transfer | contracts/star-token/src/lib.rs:518-537 | the owner moves STAR between accounts that are not frozen |
| StarTokenContract.Contract.TransferFrom | contracts/star-token/src/lib.rs:539-559 | a spender moves STAR out of its allowance, which is taken before freeze list and balance are checked |
| StarTokenContract.Contract.Burn | contracts/star-token/src/lib.rs:561-574 | the owner burns its own STAR |
| StarTokenContract.Contract.BurnFrom | contracts/star-token/src/lib.rs:576-595 | a spender burns out of its allowance, which is taken before freeze list and balance are checked |
| StarTokenContract.Contract.AddBalance | contracts/star-token/src/lib.rs:731-737 | credits, or fails exactly when the sum does not fit in 128 bits |
| StarTokenContract.Contract.SubBalance | contracts/star-token/src/lib.rs:739-751 | debits, or fails exactly when the balance is too small or the new one does not fit in 128 bits |
| StarTokenContract.Contract.MintInternal | contracts/star-token/src/lib.rs:410-420 | the part mint and mint_from_minter share: refuses exactly above the cap; the credit after the cap check cannot fail |
| StarTokenContract.Contract.TransferInternal | contracts/star-token/src/lib.rs:753-765 | moves the amount; the credit after the debit cannot overflow |
| StarTokenContract.Contract.BurnInternal | contracts/star-token/src/lib.rs:767-779 | burns the amount; the supply cannot go below 0 after the debit |
| StarTokenContract.Contract.SpendAllowance | contracts/star-token/src/lib.rs:796-833 | spends exactly the amount or fails with the source's error |
| RewardEngine.FormulasAgree | apps/api/src/common/utils/rewards.ts:5-7 | the checked multiplication never fails, so on-chain and off-chain formula agree on every positive amount, and exactly the positive ones are accepted |
| RewardEngine.RewardBounds | contracts/reward-engine/src/lib.rs:262-271 | 1000 R(a) <= a < 1000 R(a) + 10000 |
| RewardEngine.RewardSplit | contracts/reward-engine/src/lib.rs:262-271 | R(a) + R(b) <= R(a + b) <= R(a) + R(b) + 10 |
| RewardEngine.AcceptedIff | contracts/reward-engine/src/lib.rs:132-388 | exactly which calls the engine accepts, what an issue call promises (10 STAR per full 100 rupees, 100 for a referral, the named amount for a campaign), and a true reason for each refusal |
| RewardEngine.RecordAfter | contracts/reward-engine/src/lib.rs:339-388 | an accepted issue call writes exactly its own record, complete and dated; nothing else writes any |
| RewardEngine.PauseIff | contracts/reward-engine/src/lib.rs:187-213 | only the admin moves the pause flag; a paused engine changes nothing else |
| RewardEngineContract.Contract.constructor | contracts/reward-engine/src/lib.rs:96-118 | a deployed engine is in the initial state |
| RewardEngineContract.Contract.Invoke | contracts/reward-engine/src/lib.rs:132-331 | one call, with its mint, is one step of engine and token together; a failing call leaves both alone |
| RewardEngineContract.Contract.IssueReward | contracts/reward-engine/src/lib.rs:339-388 | mints and records for an enabled, authorising issuer, or changes neither contract; nothing can fail once the mint went through |
| RewardEngineContract.Contract.IssueSpendReward | contracts/reward-engine/src/lib.rs:273-294 | computes the reward, refuses a zero one and issues it |
| RewardEngineContract.Contract.SetAdmin | contracts/reward-engine/src/lib.rs:132-148 | the admin proposes a successor, unless paused; a failing call changes nothing |
| RewardEngineContract.Contract.AcceptAdmin | contracts/reward-engine/src/lib.rs:152-185 | the pending admin takes office by its own authority and the issuer flag moves with it, unless it succeeds itself |
| RewardEngineContract.Contract.Pause | contracts/reward-engine/src/lib.rs:187-199 | the admin sets the pause flag; anyone else changes nothing |
| RewardEngineContract.Contract.Unpause | contracts/reward-engine/src/lib.rs:201-213 | the admin clears the pause flag, also while paused |
| RewardEngineContract.Contract.SetIssuer | contracts/reward-engine/src/lib.rs:237-255 | the admin switches an issuer on or off, unless paused |
| PaymentRuns.LifecycleKept | contracts/payment-engine/src/lib.rs:353-552 | over every run each payment's history is a prefix of Created, Quoted, Converted, Settled, Rewarded, Completed, possibly ended by Failed from a live state or Cancelled before conversion; quotes are positive exactly from Quoted on, no reward before Rewarded |
| PaymentRuns.AtMostFiveChanges | contracts/payment-engine/src/lib.rs:503-552 | at most five status changes, none after Completed, Cancelled or Failed |
| PaymentRuns.EndedFixed | contracts/payment-engine/src/lib.rs:503-552 | between any two moments of a run a Completed or Cancelled payment is the same record, and a Failed one differs at most in the ledger of its last update |
| PaymentRuns.IdentityFixed | contracts/payment-engine/src/lib.rs:353-401 | between any two moments of a run the identity fields are the same, a quote is written once and a reward is not taken back |
| PaymentRuns.StatusMoves | contracts/payment-engine/src/lib.rs:503-585 | exactly who can take a payment from one status to which other in one call |
| PaymentRuns.StepChanges | contracts/payment-engine/src/lib.rs:353-585 | one call creates a payment with zero amounts, pushes it along from an allowed status, or leaves it alone |
| PaymentRuns.AcceptedIff | contracts/payment-engine/src/lib.rs:188-585 | exactly which calls the engine accepts, by authority, operator flag, amounts, statuses, payer and the registry's answer |
| PaymentRuns.RefusedForReason | contracts/payment-engine/src/lib.rs:188-585 | every refusal names a reason that is there |
| PaymentRuns.PaymentAfter | contracts/payment-engine/src/lib.rs:382-585 | what a call writes into a stored payment, column by column: a quote the three amounts it names, each in its column |
| PaymentRuns.AmountsAreQuoted | contracts/payment-engine/src/lib.rs:382-410 | over every run a payment is quoted once and carries the three amounts of that call at every later moment |
| PaymentRuns.QuotedByCall | contracts/payment-engine/src/lib.rs:382-410 | whenever a history has a payment quoted, a quote call was accepted for it |
| PaymentRuns.PauseIff | contracts/payment-engine/src/lib.rs:243-269 | only the admin moves the pause flag; a paused engine changes nothing else |
| PaymentEngine.NoTrappedPayment | contracts/payment-engine/src/lib.rs:447-501 | whatever the reward engine answers, issue_reward and complete_payment bring a settled payment to Completed; a failed reward counts 0 |
| PaymentEngine.RewardStepIff | contracts/payment-engine/src/lib.rs:442-449 | whether issue_reward succeeds depends on the payment engine's own state alone |
| PaymentEngine.StepKeyed | contracts/payment-engine/src/lib.rs:670-681 | every payment stays stored under its own id |
| PaymentEngineContract.Contract.constructor | contracts/payment-engine/src/lib.rs:144-174 | a deployed engine is in the initial state |
| PaymentEngineContract.Contract.Invoke | contracts/payment-engine/src/lib.rs:188-552 | one transaction on the contract is one step of the whole four-contract system |
| PaymentEngineContract.Contract.CreatePayment | contracts/payment-engine/src/lib.rs:328-380 | asks the registry, traps when the registry fails, refuses or stores the payment |
| PaymentEngineContract.Contract.IssueReward | contracts/payment-engine/src/lib.rs:442-486 | calls the reward engine with try_, records its answer or 0 and moves on in either case |
| PaymentEngineContract.Contract.TransitionOperator | contracts/payment-engine/src/lib.rs:563-585 | moves a payment from the one status to the other for an enabled operator |
| PaymentEngineContract.Contract.SetAdmin | contracts/payment-engine/src/lib.rs:188-203 | the admin proposes a successor, unless paused; a failing call changes nothing |
| PaymentEngineContract.Contract.AcceptAdmin | contracts/payment-engine/src/lib.rs:209-241 | the pending admin takes office by its own authority and the operator flag moves with it, unless it succeeds itself |
| PaymentEngineContract.Contract.Pause | contracts/payment-engine/src/lib.rs:243-255 | the admin sets the pause flag; anyone else changes nothing |
| PaymentEngineContract.Contract.Unpause | contracts/payment-engine/src/lib.rs:257-269 | the admin clears the pause flag, also while paused |
| PaymentEngineContract.Contract.SetOperator | contracts/payment-engine/src/lib.rs:276-298 | the admin switches an operator on or off, unless paused |
| PaymentEngineContract.Contract.QuotePayment | contracts/payment-engine/src/lib.rs:382-410 | an operator stores a valid quote, each amount in its column, on a payment that is only created, and moves it to Quoted |
| PaymentEngineContract.Contract.CancelPayment | contracts/payment-engine/src/lib.rs:503-528 | the payer itself cancels its payment as long as it is created or quoted |
| PaymentEngineContract.Contract.FailPayment | contracts/payment-engine/src/lib.rs:530-552 | an operator fails a payment that is neither completed nor cancelled |
| MerchantRegistry.StatusClosed | contracts/merchant-registry/src/lib.rs:232-346 | no call leads out of {Approved, Suspended} or out of Rejected; records are never removed; only the owner changes owner or metadata, only the admin the status |
| MerchantRegistry.StatusMoves | contracts/merchant-registry/src/lib.rs:232-302 | a status changes exactly along Pending-Approved, Pending-Rejected, Approved-Suspended, Suspended-Approved, by the admin of an unpaused registry |
| MerchantRegistry.AcceptedIff | contracts/merchant-registry/src/lib.rs:121-346 | exactly which calls the registry accepts, by authority and status, and a true reason for each refusal |
| MerchantRegistry.MerchantAfter | contracts/merchant-registry/src/lib.rs:196-346 | only the admin registers a merchant, and pending; what each call writes into a stored merchant, column by column |
| MerchantRegistry.IsApprovedIff | contracts/merchant-registry/src/lib.rs:356-359 | answers yes exactly for status Approved, no for the other three and an error for an unknown merchant |
| MerchantRegistry.PauseIff | contracts/merchant-registry/src/lib.rs:163-189 | only the admin moves the pause flag; a paused registry changes nothing else |
| MerchantRegistryContract.Contract.constructor | contracts/merchant-registry/src/lib.rs:93-106 | a deployed registry is in the initial state |
| MerchantRegistryContract.Contract.Invoke | contracts/merchant-registry/src/lib.rs:121-346 | each entry point is one step of the registry's state machine, and a failing one writes nothing |
| MerchantRegistryContract.Contract.SetAdmin | contracts/merchant-registry/src/lib.rs:121-136 | the admin proposes a successor, unless paused; a failing call changes nothing |
| MerchantRegistryContract.Contract.AcceptAdmin | contracts/merchant-registry/src/lib.rs:142-161 | the pending admin takes office by its own authority |
| MerchantRegistryContract.Contract.Pause | contracts/merchant-registry/src/lib.rs:163-175 | the admin sets the pause flag; anyone else changes nothing |
| MerchantRegistryContract.Contract.Unpause | contracts/merchant-registry/src/lib.rs:177-189 | the admin clears the pause flag, also while paused |
| MerchantRegistryContract.Contract.RegisterMerchant | contracts/merchant-registry/src/lib.rs:196-230 | the admin stores a pending merchant for an owner under an id not yet taken |
| MerchantRegistryContract.Contract.ApproveMerchant | contracts/merchant-registry/src/lib.rs:232-255 | the admin approves any known merchant that is not rejected |
| MerchantRegistryContract.Contract.SuspendMerchant | contracts/merchant-registry/src/lib.rs:257-280 | the admin suspends an approved merchant and no other |
| MerchantRegistryContract.Contract.RejectMerchant | contracts/merchant-registry/src/lib.rs:282-302 | the admin rejects a pending merchant and no other |
| MerchantRegistryContract.Contract.UpdateMetadata | contracts/merchant-registry/src/lib.rs:304-324 | the owner replaces the metadata hash of its merchant |
| MerchantRegistryContract.Contract.TransferOwner | contracts/merchant-registry/src/lib.rs:326-346 | the owner hands its merchant over to another owner |
| MerchantRegistryContract.Contract.IsApproved | contracts/merchant-registry/src/lib.rs:356-359 | answers whether the merchant is approved, an error for an unknown one, also while paused |
| AdminHandoff.AdminChangesByHandoff | contracts/star-token/src/lib.rs:152-216 | in all four contracts the admin changes only when the address the then-current admin proposed last accepts and authorises itself |
| AdminHandoff.OutgoingStaysRevoked | contracts/star-token/src/lib.rs:183-190 | after a rotation to another key the outgoing key has no minter, authorised, issuer, operator or admin power until an admin switches it on or it accepts again |
| AdminHandoff.RotationMovesPower | contracts/payment-engine/src/lib.rs:220-232 | a rotation takes the power from the old and gives it to the new admin; a self-rotation takes nothing |
| AdminHandoff.StepIsMove | contracts/reward-engine/src/lib.rs:132-185 | every transaction acts on every power as a proposal, an acceptance, a switch or not at all, with the authority that needs |
| AdminHandoff.PendingWasProposed | contracts/merchant-registry/src/lib.rs:121-161 | a pending admin was proposed by the admin of that moment, who has not changed since |
| AdminHandoff.HoldersAccounted | contracts/reward-engine/src/lib.rs:152-255 | whoever holds a power held it at deployment or was given it, and whoever lacks it lacked it then or was deprived of it, by the admin's switch or an accepted handoff |
| Ramps.TrailReplays | apps/api/src/ramps/ramps.service.ts:87-283 | in every reachable state each ramp's event trail replays to the stored status; completedAt is set exactly when COMPLETED, failureCode exactly when ERROR |
| Ramps.ReplayReads | apps/api/src/ramps/ramps.service.ts:261-283 | a trail that replays is numbered 1..n, starts with INITIATED, which never recurs, has no event after a terminal status, and each change starts from the preceding status and leads elsewhere |
| Ramps.TerminalAbsorbing | apps/api/src/ramps/ramps.service.ts:195-199 | over any stretch of a run the event table only grows, and a terminal ramp and its trail never change |
| Ramps.ApplyStatusIff | apps/api/src/ramps/ramps.service.ts:211-249 | applyStatus keeps the trail exactly when nothing changes, or the caller's status is the stored one, not terminal, and the new one not INITIATED |
| Ramps.MapStatusIff | apps/api/src/ramps/providers/moneygram.provider.ts:254-284 | for each status exactly the provider statuses that lead to it; everything unknown is an error, nothing leads to INITIATED |
| Ramps.RefreshWrites | apps/api/src/ramps/ramps.service.ts:211-249 | what an answered refresh of a live ramp writes, column by column: COMPLETED with the time exactly for "completed", an error code exactly for an unknown answer |
| Ramps.EndedAsReported | apps/api/src/ramps/ramps.service.ts:195-249 | over every run a ramp is COMPLETED, REFUNDED or EXPIRED exactly when the provider once said so while it was live |
| Ramps.CompletedWhenReported | apps/api/src/ramps/ramps.service.ts:229-232 | completedAt is and stays the time of that report |
| Ramps.SourcesTell | apps/api/src/ramps/ramps.service.ts:203-244 | over every run exactly the status changes name the poller as their source |
| Ramps.RefreshNoOpIff | apps/api/src/ramps/ramps.service.ts:190-205 | exactly when a refresh does nothing: unknown or ended ramp, missing or empty provider id, failing provider, or an unchanged status polled at this very time without a new detail |
| Ramps.UnchangedStatusWrites | apps/api/src/ramps/ramps.service.ts:211-249 | on an unchanged status the events and the other rows stay, and of this row only the poll time and the details are written |
| Ramps.RefreshAgain | apps/api/src/ramps/ramps.service.ts:190-205 | refreshing again with the same answer changes at most the poll time |
| Ramps.UnchangedStatusExample | apps/api/src/ramps/ramps.service.ts:217-240 | a reachable state and an answer that leaves the status unchanged and still writes the row |
| Ramps.InitiateIff | apps/api/src/ramps/ramps.service.ts:50-160 | a ramp row appears exactly for a verified user, a supporting provider and, off-ramp, an amount; it ends ERROR exactly when the provider fails or answers an id another ramp holds, and is pending under the answered id otherwise; the whole row is stated and no other changes |
| Ramps.RefusedFor | apps/api/src/ramps/ramps.service.ts:50-69 | the reason of a refusal: identity first, then the provider, then the amount |
| Ramps.StartedIff | apps/api/src/ramps/ramps.service.ts:104-128 | a ramp is started exactly when one of three tries to authenticate and then one of three tries to start succeeds; the first start counts |
| Ramps.ProviderIdsDistinct | apps/api/prisma/schema.prisma:591 | in every reachable state no two ramps share a provider id |
| Ramps.RetryIsFirstSuccess | apps/api/src/ramps/ramps.service.ts:286-299 | retrying gives the first success, or the last failure when every try fails |
| RampsService.Service.WithRetry | apps/api/src/ramps/ramps.service.ts:286-299 | the loop computes the retry specification |
| RampsService.Service.FindLast | apps/api/src/ramps/ramps.service.ts:268-272 | the highest sequence number of a ramp's events |
| RampsService.Service.Append | apps/api/src/ramps/ramps.service.ts:261-283 | appends one event with the next number |
| RampsService.Service.InitiateOnRamp | apps/api/src/ramps/ramps.service.ts:50-57 | refuses before storing anything, or initiates |
| RampsService.Service.InitiateOffRamp | apps/api/src/ramps/ramps.service.ts:59-69 | refuses before storing anything, or initiates |
| RampsService.Service.Initiate | apps/api/src/ramps/ramps.service.ts:87-160 | writes row and first event before calling the provider, then the outcome; an id the unique index refuses ends like a failing provider |
| RampsService.Service.RefreshStatus | apps/api/src/ramps/ramps.service.ts:195-205 | no-op for ended ramps, ramps with a missing or empty provider id and failing providers; otherwise applies the provider's status, COMPLETED with the time exactly for "completed" |
| RampsService.Service.ApplyStatus | apps/api/src/ramps/ramps.service.ts:211-249 | writes the poll time and details always, status and event on a change |
| RampPoller.EveryRampPolled | apps/api/src/ramps/ramp-reconciliation.service.ts:30-60 | when at most F < 20 ramps may fail or have an empty id and N eligible ones do not, each of the N was polled or left eligibility after k passes with (20 - F) k >= N |
| RampPoller.PolledInTurn | apps/api/src/ramps/ramp-reconciliation.service.ts:30-60 | a ramp that has an id and does not fail is polled once the ramps ahead of it are through, at twenty a pass less those ahead of it that fail or have no id |
| RampPoller.PolledDespiteFailures | apps/api/src/ramps/ramp-reconciliation.service.ts:30-60 | when each pass leaves at most f < 20 ramps unmarked, whichever they are, a ramp that does not fail itself is polled or ineligible after k passes with (20 - f) k >= the number of ramps not behind it |
| RampPoller.StarvationIff | apps/api/src/ramps/ramp-reconciliation.service.ts:30-60 | over passes as many as its queue is long in which nobody ages out, a waiting ramp can be passed over throughout exactly when twenty ramps that fail or have an empty id are ahead of it |
| RampPoller.TwentyStarve | apps/api/src/ramps/ramp-reconciliation.service.ts:32-60 | with twenty failing ramps ahead of it there are legal passes at any given times, any number of them, that never select a ramp |
| RampPoller.TwentyFirstStarves | apps/api/src/ramps/ramp-reconciliation.service.ts:32-60 | of 21 ramps opened under different ids and never polled, twenty of which fail, the last need not be polled in any number of passes on the first day |
| RampPoller.EmptyIdNeverPolled | apps/api/src/ramps/ramp-reconciliation.service.ts:32-47 | a reachable ramp with an empty id that is eligible all day and that no refresh ever changes |
| RampPoller.OneNameless | apps/api/prisma/schema.prisma:591 | every reachable state holds at most one ramp with an empty id |
| RampPoller.PassServesTwenty | apps/api/src/ramps/ramp-reconciliation.service.ts:45-60 | a pass that does not select a waiting ramp takes twenty less those that fail or have no id off the queue ahead of it for good and puts nobody new ahead |
| RampPoller.PassPolls | apps/api/src/ramps/ramp-reconciliation.service.ts:51-60 | a pass leaves every ramp it does not select alone and polls each one it selects, or leaves it alone where the refresh fails or the id is empty |
| RampPoller.BatchExists | apps/api/src/ramps/ramp-reconciliation.service.ts:32-47 | the query always has a legal answer |
| RampPoller.EligibleIff | apps/api/src/ramps/ramp-reconciliation.service.ts:31-43 | in every reachable state the query selects from the ramps that have not ended, have a provider id and are at most 24 hours old |
| RampPoller.FailuresLeaveNoMark | apps/api/src/ramps/ramp-reconciliation.service.ts:45-60 | when every ramp of a batch fails or has an empty id, the same batch stays legal for any number of passes and the database never changes |
| RampPoller.Reconciliation.ReconcilePending | apps/api/src/ramps/ramp-reconciliation.service.ts:30-60 | runs the query, refreshes what it selected in order and carries on after failures; the state is that of one pass over a legal batch |
| AmlScreening.RollingHash | apps/api/src/aml/aml.service.ts:318-324 | the wrapping 32-bit loop computes the signed 32-bit representative of the polynomial sum of s[i]*31^(n-1-i) |
| AmlScreening.SimpleHash | apps/api/src/aml/aml.service.ts:318-326 | the absolute value of that representative, at most 2^31 |
| AmlScreening.HashConcat | apps/api/src/aml/aml.service.ts:318-324 | hash(s+t) is congruent to hash(s)*31^|t| + hash(t) modulo 2^32 before the sign is dropped |
| AmlScreening.RollIsResidue | apps/api/src/aml/aml.service.ts:322-323 | one step of the loop computes the residue of 31 h + c whatever wrapped on the way |
| AmlScreening.PolyConcat | apps/api/src/aml/aml.service.ts:318-324 | the polynomial of a concatenation |
| AmlScreening.MockScreening | apps/api/src/aml/aml.service.ts:111-171 | score in 0..99, the level by the thresholds 30, 60 and 80, and each flag exactly when score and address call for it, in a fixed order without repetition |
| AmlScreening.LevelMonotone | apps/api/src/aml/aml.service.ts:101-106 | a higher score never has a lower level |
| AmlScreening.SanctionInAnyCase | apps/api/src/aml/aml.service.ts:134 | the text search finds the word "sanction" in any mix of cases and nothing else |
| AmlScreening.HashesCollide | apps/api/src/aml/aml.service.ts:318-326 | two different texts with one hash |
| TaxReport.GetTaxReport | apps/api/src/transactions/transactions.service.ts:408-436 | counts and amounts of both groupings add up to the totals, monthly rewards to the total rewards |
| TaxReport.GroupsAddUp | apps/api/src/transactions/transactions.service.ts:414-436 | for any measure the groups' sums add up to the sum over the list |
| TaxReport.MembersPartition | apps/api/src/transactions/transactions.service.ts:414-436 | each transaction occurs in the group of its key as often as in the list and in no other group |
| TaxReport.GroupSumOfMembers | apps/api/src/transactions/transactions.service.ts:414-436 | a group exists exactly when it has members, and sums up exactly them |
| TaxReport.GroupsAre | apps/api/src/transactions/transactions.service.ts:414-436 | the group of an asset holds exactly the transactions in that asset, the group of a month those of that month |
| TaxReport.MeasuresAdd | apps/api/src/transactions/transactions.service.ts:408-411 | the measures are the number of transactions, the sum of their amounts and the sum of their rewards |
| TaxReport.GroupByAsset | apps/api/src/transactions/transactions.service.ts:414-423 | the reduce loop computes the groups by asset |
| TaxReport.GroupByMonth | apps/api/src/transactions/transactions.service.ts:426-436 | the reduce loop computes the groups by month |
| TaxReport.Totals | apps/api/src/transactions/transactions.service.ts:409-411 | the reduce loops compute the totals |
| TaxReport.SumRewards | apps/api/src/transactions/transactions.service.ts:411 | the inner reduce sums the rewards of a transaction |

## Left out

- Contract addresses that change: `set_contracts` and `set_star_token` repoint a contract at others about which nothing is known.
- Storage lifetimes: `extend_ttl`, `bump_instance` and `heartbeat`; persistent entries are taken as permanent.
- The `NotInitialized` and `AlreadyInitialized` errors: the constructor runs with the deployment and exactly once, so these branches are never taken.
- Token name, symbol, decimals, muxed address decoding and the getters that only read one field.
- The events of the reward engine, the payment engine and the registry; only the token's log is modelled.
- StarTokenContract.Contract.constructor: does not model the abort of a deployment with a cap that is not positive, because no contract comes out of it.
- Which call of a transaction a signature covers: a signer is taken to authorise every call of the transaction. Budget and size limits of the host.
- Concurrent ramp polls and database failures in the middle of a step: each initiate and each refresh is one atomic step.
- RampPoller.EveryRampPolled: assumes that only the poller touches the ramps, because ramps opened meanwhile go to the front of the queue and can take any number of turns.
- RampPoller.Reconciliation.ReconcilePending: takes the database as a parameter that gives some legal answer to the query; `RampPoller.IsBatch` says which answers are legal.
- Provider registry lookup, failure messages, interactive URLs, public ids, log lines, the amount a client asks for, pagination and serialisation of ramps, and the back-off delays of the retries.
- The lengths and types of database columns: an answer that the database refuses for one of them counts as a call to the provider that throws. The unique index on the provider id is modelled.
- MoneyGram HTTP, SEP-10 and every other foreign call: what they return is an input.
- Chainalysis and TRM responses, flag descriptions and metadata, timestamps and reference ids of a screening.
- The database query behind the tax report, the crypto amounts per asset (floating point), the text form of month keys and amounts of 2^53 and above.
- `transaction-processor.service.ts`: it mints through `issueStarReward` and completes payments without the payment engine's `issue_reward`, so it is not a refinement of the payment contract.
- Quotes and top-ups in floating point, rates, settlement, KYC, authentication, and the web applications.
