# Nakama subscription escrow: a verified model

Nakama streams USDC from a subscriber to a merchant. A subscriber prefunds an escrow vault; the escrow unlocks
`min(floor(elapsed * price / period), deposited)` as time passes; two independent writers draw on it: `charge`, which
anyone may submit, and `settle_usage`, which a delegated facilitator submits against a pay session. Pauses and grace
periods stop the stream by shifting its anchor, top-ups extend it, `cancel` splits what is left, and `cleanup` frees the
address for a new subscription. Off-chain clients predict, display, list and compose transactions on top of it.

The project models all eleven instructions, what wallets can do around them with the token program alone, the two
composite-transaction builders, the status derivation of both clients and the session scanners of both clients, and proves
what the system promises about them over whole histories.

## How the model is built

| module | content |
|---|---|
| `Integers`, `Outcomes`, `StreamMath` | machine widths, error codes, the stream formula and the laws of its floor division |
| `State` | the records, keyed by the seeds of their addresses, and the journal of token movements |
| `Program` | the handlers as methods of a class that writes its accounts one field at a time, with the checked arithmetic of the source; `Submit` is the transaction boundary that rolls back on an error |
| `Handlers` | the same handlers as functions from accounts to accounts or an error; every method of `Program` is proved against its function |
| `Effects` | what each successful instruction does, exactly: amounts, every field that changes, and that nothing else does |
| `Refusals` | why each instruction fails: the only errors a reachable state can report, and exactly when |
| `Books` | sums over token accounts and vaults, and what the journal says about one escrow |
| `Invariants` | what every instruction keeps, for any clock |
| `Runs` | histories: any instructions, any signers, any clock readings, any wallet activity, from any funded cluster; failed instructions change nothing |
| `Routing` | whose accounts the escrowed tokens came from and went to |
| `Custody` | who must have signed for which change to wallets, records, sessions and plans |
| `Settlement` | the stopwatch, final settlement, and the agreement of the two writers, for clocks that do not run backwards |
| `Liveness`, `Keeper`, `Grace`, `Sessions`, `Lifecycle` | exactly when each instruction on a subscription succeeds, and what it then does |
| `Continuations` | what binds in every later state: the terms of a plan, the delegation of a session |
| `Disturbance` | what tokens sent to a vault from outside do: which lifetimes can still end |
| `Builders`, `BuilderSoundness` | the instruction lists of the composite builders, and what happens when they are executed |
| `Views`, `ReadModel` | the records as clients see them, and the two status derivations |
| `Samples` | the wallets of the concrete histories |
| `Wire`, `Layout`, `SessionScan` | the Borsh form of a pay session, the two scans, and the scans run on the program's own accounts |

A *lifetime* of an address begins with `subscribe`. The journal is read per lifetime (`BookOf` starts over at a
prefund), because sessions and addresses outlive subscriptions: a session left open survives `cancel` and `cleanup` and
can settle against the next subscription at the same address.

`ActiveSeconds(r, k)` is defined from the history alone, by adding up the time between instructions during which the record
was Active. It never looks at `stream_start`; that the two agree is a theorem, not a definition.

Wallets act too: `TokenTransfer`, `Donate` (tokens sent straight to a vault), `OpenTokenAccount`, `CloseTokenAccount` and
`AssignTokenAccount` are instructions of the model, interleaved with the program's own in every history. So the merchant's
account may be missing when a charge or a cancellation arrives, and a vault may hold more than its escrow; the theorems
say exactly what happens then. The journal records who owned the token account at the moment tokens moved.

Errors are values. A method that fails midway leaves partial writes behind exactly as a handler does; `Submit` is what
restores them.

## Where the code and its prose differ

The model follows the code.

- `README.md:69` draws a transition from GracePeriod to Exhausted when grace times out. No instruction writes Exhausted:
  `Runs.SatellitesMatchState` shows it is unreachable. A subscription whose grace has expired can still be topped up
  (`Lifecycle.TopUpIff`) and, while nobody outside has sent its vault tokens, cancelled (`Liveness.NoStuckFunds`) at any
  later time.
- `nakama/programs/nakama/src/instructions/cancel.rs:160-162` calls cancel the subscriber's and merchant's escape hatch. It
  is one only while the vault holds nothing but the escrow: `Disturbance.DisturbedCancelRefused` is a well-formed
  cancellation that is refused because one unit had been sent to the vault. `Disturbance.EndsIffUndisturbed` says exactly
  which lifetimes can still end: those whose vault outsiders have sent nothing. `Disturbance.LockedForever` shows that the
  others stay live in every continuation.
- `nakama/programs/nakama/src/instructions/top_up.rs:176-178` says the formula resumes from the exhaustion moment. It resumes from the
  moment the exhausting charge landed; what had accrued above the deposit by then is claimable at once.
  `Grace.ExactRecovery` gives the exact amount and the exact condition for it to be zero, and
  `Grace.LateGraceOvershoots` a history where it is not.
- `nakama/programs/nakama/src/instructions/charge.rs:170-174` says the grace account is created at most once per lifetime. A
  recovering top-up removes it and the stream can be exhausted again: `Grace.CreatedTwice` is a history with two creations
  in one lifetime. `Grace.CreatedOnceIff` says when the statement does hold: the charge that enters grace makes the first
  creation if and only if no top-up of the lifetime has recovered from grace before. `Grace.GraceCycles` counts them all.
- `clients/ts/src/computedStatus.ts:5-9` and `crates/nakama-client/src/computed_status.rs:24` promise the same dispatch in
  both clients. TypeScript compares the truncated percentage, Rust the exact ratio: between 80% and 81% with a week of
  runway left only Rust raises the banner. `ReadModel.ClientsAgree` states exactly when they agree, and
  `ReadModel.ClientsDisagree` and `ReadModel.CapsDisagree` reach one subscription for each of the two ways to differ.
- `crates/nakama-client/src/computed_status.rs:86-90` promises a strictly positive countdown in grace. It is zero in the last
  second and only then: `ReadModel.CountdownEnds`, reached by `ReadModel.CountdownReachesZero`.
- `nakama/programs/nakama/src/state.rs:43-49` says state 4 is never observable. `cancel` leaves the record as a tombstone,
  as lines 63-67 of the same file say.

## Model

| member | source | states |
|---|---|---|
| Program.Ledger.CreatePlan | nakama/programs/nakama/src/instructions/create_plan.rs:24-90 | a plan is written once, only with a positive price and period and an account the merchant owns; otherwise which error, and no change |
| Program.Ledger.Subscribe | nakama/programs/nakama/src/instructions/subscribe.rs:83-166 | the prefund moves into a new vault and the record snapshots the plan, Active from now; the whole new state, or the error |
| Program.Ledger.StreamUnlocked | nakama/programs/nakama/src/instructions/charge.rs:232-253 | the checked u128 computation never takes its overflow arm and yields the capped floor of the stream formula |
| Program.Ledger.NextChargeAt | nakama/programs/nakama/src/instructions/charge.rs:297-313 | the keeper hint through u128 and back to i64, failing exactly when a step leaves its width |
| Program.Ledger.Charge | nakama/programs/nakama/src/instructions/charge.rs:50-383 | the whole charge: plan, account and stream guards, payment, hint and grace transition, or the first error |
| Program.Ledger.TopUp | nakama/programs/nakama/src/instructions/top_up.rs:50-204 | the deposit grows by what the wallet paid; out of grace the anchor moves by the time since grace began and the satellite goes |
| Program.Ledger.Pause | nakama/programs/nakama/src/instructions/pause.rs:22-111 | an Active record becomes Paused with a satellite dated now, by its merchant only |
| Program.Ledger.Resume | nakama/programs/nakama/src/instructions/resume.rs:26-98 | a Paused record becomes Active with its anchor moved by the pause and the satellite gone |
| Program.Ledger.EffectiveNow | nakama/programs/nakama/src/instructions/cancel.rs:198-223 | which instant a cancellation settles to in each state, and which satellite it insists on |
| Program.Ledger.CancelAccounts | nakama/programs/nakama/src/instructions/cancel.rs:46-158 | the account constraints of cancel, the rent recipient's pin, the satellite's back-reference and the two entitled signers, in order |
| Program.Ledger.Cancel | nakama/programs/nakama/src/instructions/cancel.rs:145-333 | the whole cancellation: claim to the merchant, refund to the subscriber, tombstone, or the first error |
| Program.Ledger.Cleanup | nakama/programs/nakama/src/instructions/cleanup.rs:31-82 | only the subscriber of a terminal record removes it, and nothing else changes |
| Program.Ledger.OpenSession | nakama/programs/nakama/src/instructions/open_session.rs:28-110 | a fresh session under an Active parent, its cap within the remaining escrow, routed to the parent's merchant |
| Program.Ledger.CloseSession | nakama/programs/nakama/src/instructions/close_session.rs:31-85 | the subscriber removes an Open session whatever state the parent is in |
| Program.Ledger.SettleUsage | nakama/programs/nakama/src/instructions/settle_usage.rs:45-237 | the whole settlement, with the session locked during the transfer, or the first error |
| Program.Ledger.Execute | nakama/programs/nakama/src/lib.rs:41-133 | every instruction reaches its handler with its own arguments |
| Program.Ledger.Submit | crates/nakama-client/src/change_rate.rs:4-10 | a transaction's instructions run in order at one clock reading; the first error restores every account |
| Effects.CreatePlanExact | nakama/programs/nakama/src/instructions/create_plan.rs:58-78 | a plan is created if and only if id, account, price and period allow it, and then holds exactly the given price, period and account |
| Effects.SubscribeExact | nakama/programs/nakama/src/instructions/subscribe.rs:113-154 | exactly price * periods moves from the subscriber's account into a new vault, and every field of the record is given |
| Effects.ChargeExact | nakama/programs/nakama/src/instructions/charge.rs:246-373 | exactly min(floor(elapsed * price / period), deposited) minus the withdrawals moves to the merchant's account; the new totals, times and the hint as an exact floor; grace of 604,800 seconds exactly at exhaustion; nothing else changes |
| Effects.TopUpExact | nakama/programs/nakama/src/instructions/top_up.rs:140-195 | exactly the amount leaves the wallet and enters vault and deposit; outside grace nothing else changes, in grace the anchor moves by the time since it was entered |
| Effects.PauseResumeExact | nakama/programs/nakama/src/instructions/resume.rs:68-87 | the only changes are the state, the satellite and, on resume, the anchor by the length of the pause |
| Effects.CancelExact | nakama/programs/nakama/src/instructions/cancel.rs:198-317 | the vault held exactly claim plus refund; the merchant's account gains the claim earned by the effective end, the subscriber's the rest, every other account nothing; the tombstone's fields; vault and attached satellites gone |
| Effects.OpenSessionExact | nakama/programs/nakama/src/instructions/open_session.rs:83-99 | the session stores exactly the given facilitator and cap, the time, and its parent's routing, and nothing else changes |
| Effects.CloseSessionExact | nakama/programs/nakama/src/instructions/close_session.rs:45-70 | the session is removed and nothing else changes |
| Effects.CleanupExact | nakama/programs/nakama/src/instructions/cleanup.rs:36-43 | the record is removed and nothing else changes |
| Effects.SettleUsageExact | nakama/programs/nakama/src/instructions/settle_usage.rs:175-224 | exactly the amount leaves the vault, reaches the merchant's account and is added to withdrawals and usage; nothing else changes |
| Refusals.CreationRefused | nakama/programs/nakama/src/instructions/subscribe.rs:95-137 | the only errors of create_plan and subscribe in a reachable state, and which one when |
| Refusals.ChargeRefused | nakama/programs/nakama/src/instructions/charge.rs:50-257 | the only errors of charge while now + period and now + seven days fit i64; on a tombstone it is the missing vault that is reported |
| Refusals.TopUpRefused | nakama/programs/nakama/src/instructions/top_up.rs:60-158 | the only errors of top_up: never the state, the clock or the anchor |
| Refusals.StateChangeRefused | nakama/programs/nakama/src/instructions/pause.rs:23-77 | the only errors of pause, resume and cleanup |
| Refusals.CancelRefused | nakama/programs/nakama/src/instructions/cancel.rs:46-317 | the only errors of cancel: never the clock, the arithmetic or a transfer |
| Refusals.SessionRefused | nakama/programs/nakama/src/instructions/settle_usage.rs:45-173 | the only errors of open_session, close_session and settle_usage |
| StreamMath.AccruedProgress | nakama/programs/nakama/src/instructions/subscribe.rs:103-111 | the rate guard of subscribe means every second earns at least one unit |
| Invariants.Isolation | nakama/programs/nakama/src/instructions/charge.rs:50-189 | for any accounts and any clock, an instruction on one subscription leaves every other one's record, vault, satellites, sessions and books untouched, edits no plan, opens, closes or hands over no token account, and changes no token supply |
| Invariants.Preservation | nakama/programs/nakama/src/state.rs:222-255 | the whole invariant survives every instruction at every clock reading, even one running backwards |
| Runs.RunInvariant | nakama/programs/nakama/src/state.rs:119-175 | after any history the invariant holds and the token supply is the one the history began with |
| Runs.EscrowIsExact | README.md:78-84 | in every reachable state a vault exists exactly while its subscription is live and holds exactly deposits minus withdrawals plus what outsiders sent to it |
| Runs.SatellitesMatchState | nakama/programs/nakama/src/state.rs:509-520 | in every reachable state a paused or graced record exists exactly in its own state, grace means nothing is left, and Exhausted never occurs |
| Runs.JournalExplainsBalances | nakama/programs/nakama/src/instructions/charge.rs:275-285 | every token account holds what it began with plus what the journalled transfers credit and debit it, whenever it was opened or closed |
| Routing.EscrowIsRouted | nakama/programs/nakama/src/instructions/charge.rs:83-93 | over every history each payment by charge, settlement or claim went to the account its plan names, and each prefund, top-up and refund touched only an account its subscriber owned at that moment |
| Routing.StepGrows | nakama/programs/nakama/src/instructions/cancel.rs:89-106 | every transfer an instruction makes is routed so, and is journalled with the account's true owner |
| Routing.BooksHaveOwners | nakama/programs/nakama/src/instructions/settle_usage.rs:84-93 | so a lifetime's totals are exactly what that account received and what accounts of the subscriber deposited and got back |
| Custody.WalletCustody | nakama/programs/nakama/src/instructions/top_up.rs:98-105 | no instruction takes tokens from, closes or hands over a token account without its owner's signature |
| Custody.RecordCustody | nakama/programs/nakama/src/state.rs:119-155 | terms never change and neither deposits nor withdrawals ever fall; only the subscriber creates, funds, recovers and removes a record, only the merchant pauses and resumes it, one of the two cancels it, and only the permissionless charge, a session's facilitator or cancel draws on it |
| Custody.SessionCustody | nakama/programs/nakama/src/instructions/open_session.rs:58-100 | a session opens under the parent's subscriber with a cap the remaining escrow covers, is closed by the subscriber, and grows only by its facilitator |
| Custody.PlanCustody | nakama/programs/nakama/src/instructions/create_plan.rs:46-78 | a plan appears under its merchant's signature, pays into an account the merchant owns then, and never changes |
| Settlement.CancelUnlocks | nakama/programs/nakama/src/instructions/cancel.rs:198-247 | all three effective ends of a cancellation unlock what the stopwatch has earned |
| Settlement.Stopwatch | nakama/programs/nakama/src/instructions/resume.rs:68-86 | in every reachable state the anchor encodes exactly the seconds spent Active, and withdrawals never exceed what they earned |
| Settlement.FinalSettlement | nakama/programs/nakama/src/instructions/cancel.rs:204-317 | after any history ending in cancel, even past cleanup, the plan's merchant account has been paid exactly min(floor(A * price / period), D), accounts of the subscriber have been refunded exactly the rest of what accounts of the subscriber deposited, and nothing went anywhere else |
| Settlement.ChargeCatchesUp | nakama/programs/nakama/src/instructions/settle_usage.rs:145-173 | right after a charge both writers together have paid the plan's merchant account exactly what the stopwatch earned, whatever was interleaved |
| Settlement.PathIndependence | nakama/programs/nakama/src/instructions/settle_usage.rs:160-212 | two histories ending in a charge with equal deposits and Active time have paid the merchant's account the same |
| Liveness.PayoutSucceeds | nakama/programs/nakama/src/instructions/cancel.rs:258-286 | claim and refund always go through on a vault that covers them, and leave exactly the difference |
| Liveness.NoStuckFunds | nakama/programs/nakama/src/instructions/cancel.rs:145-317 | in every reachable state, whatever wallets did, cancel succeeds if and only if the record is live, accounts exist and match, signer and satellite match, and the vault holds nothing of outsiders; of these only the last can stop a well-formed call, at the closing of the vault |
| Liveness.CancelDecides | nakama/programs/nakama/src/instructions/cancel.rs:145-333 | a well-formed cancellation of an undisturbed vault removes vault and satellites and refunds everything not unlocked; of a disturbed one it fails at closing the vault |
| Liveness.DisturbedByDonation | nakama/programs/nakama/src/instructions/cancel.rs:305-317 | a live vault is undisturbed if and only if outsiders sent it nothing in this lifetime |
| Disturbance.EndsIffUndisturbed | nakama/programs/nakama/src/instructions/cancel.rs:305-317 | a live lifetime has a continuation that ends it if and only if outsiders have sent its vault nothing |
| Disturbance.LockedForever | nakama/programs/nakama/src/instructions/cancel.rs:305-317 | once they have, every continuation at any clock leaves the record live, so it is never cancelled, cleaned up or subscribed again |
| Disturbance.DisturbedCancelRefused | nakama/programs/nakama/src/instructions/cancel.rs:160-174 | a reachable live subscription whose well-formed cancellation is refused |
| Lifecycle.TopUpIff | nakama/programs/nakama/src/instructions/top_up.rs:113-204 | a top-up succeeds if and only if the record is live, its subscriber signs and can pay a positive amount the u64 total still holds, and the grace account is attached exactly in grace; grace can be recovered from after any time |
| Lifecycle.PauseResumeIff | nakama/programs/nakama/src/instructions/pause.rs:52-111 | pause and resume succeed if and only if the record is Active or Paused and its merchant signs; clock and arithmetic never stand in the way |
| Lifecycle.SubscribeIff | nakama/programs/nakama/src/instructions/subscribe.rs:83-166 | a subscription starts if and only if its address is free, the plan earns at least one unit a second, the prefund of at least one period fits u64 and now + period fits i64, and the subscriber can pay the prefund; a leftover vault never stands in the way |
| Lifecycle.OpenSessionIff | nakama/programs/nakama/src/instructions/open_session.rs:58-100 | a session opens if and only if the parent is Active, its subscriber signs, the id is free and the cap is zero or within the remaining escrow |
| Lifecycle.CleanupIff | nakama/programs/nakama/src/instructions/cleanup.rs:57-82 | the subscriber can clean up exactly a tombstone |
| Continuations.TermsBind | nakama/programs/nakama/src/instructions/create_plan.rs:70-78 | in every continuation every subscription to a plan streams at exactly the price and period its merchant created it with, into the account named then |
| Continuations.DelegationBinds | nakama/programs/nakama/src/instructions/open_session.rs:88-99 | until it is closed only the facilitator a session was opened with settles through it, and no more tokens than the cap it was opened with leave the escrow through it |
| Keeper.CoveredAtMost | nakama/programs/nakama/src/instructions/charge.rs:302-308 | the covered seconds never exceed the elapsed ones, so the i64 conversion cannot fail |
| Keeper.CoveredAtLeast | nakama/programs/nakama/src/instructions/charge.rs:302-308 | uncapped, they fall short by at most one second |
| Keeper.HintBounds | nakama/programs/nakama/src/instructions/charge.rs:297-313 | the hint of every successful charge lies within one second below now + period, unless the deposit capped the payment, and never above it |
| Keeper.PredictAndAttach | nakama/programs/nakama/src/instructions/charge.rs:106-149 | a charge of an Active record succeeds if and only if it names its plan and the existing merchant account, something is claimable and the satellite is attached exactly as predicted; each failure has its own error |
| Keeper.PrefundLife | nakama/programs/nakama/src/instructions/subscribe.rs:113-117 | a deposit of n periods is exhausted at exactly n * period seconds |
| Keeper.EverySecondPays | nakama/programs/nakama/src/instructions/subscribe.rs:103-111 | until then every second unlocks at least one more unit |
| Keeper.PrefundLasts | nakama/programs/nakama/src/instructions/charge.rs:127-131 | over every history, a whole-period deposit is fully unlocked if and only if the stream was Active for that many periods |
| Keeper.PaymentsAreBounded | nakama/programs/nakama/src/instructions/charge.rs:246-257 | a lifetime sees at most as many payments as units deposited |
| Grace.ExactRecovery | nakama/programs/nakama/src/instructions/top_up.rs:155-195 | what is claimable any time after a recovering top-up does not depend on the length of grace, and is zero at recovery if and only if grace began at exact exhaustion |
| Grace.LateGraceOvershoots | nakama/programs/nakama/src/instructions/top_up.rs:173-178 | a history in which a recovery makes 50 units claimable at once |
| Grace.GraceCycles | nakama/programs/nakama/src/instructions/charge.rs:334-357 | over every history a lifetime has entered grace as often as a top-up recovered it, and once more exactly while it is in grace or when it was cancelled there |
| Grace.CreatedOnceIff | nakama/programs/nakama/src/instructions/charge.rs:170-174 | a charge that enters grace makes the lifetime's first grace account if and only if no top-up of the lifetime has recovered before |
| Grace.CreatedTwice | nakama/programs/nakama/src/instructions/charge.rs:170-174 | a history that creates the grace account twice in one lifetime |
| Sessions.SessionLedger | nakama/programs/nakama/src/instructions/settle_usage.rs:175-224 | a stored session is Open, its usage is exactly the tokens the journal says left the escrow through it since it opened and within its cap, and it routes to its plan's merchant even if it outlived a parent |
| Sessions.ClosableWhileParentExists | nakama/programs/nakama/src/instructions/close_session.rs:38-70 | the subscriber can close a stored session if and only if a parent record exists |
| Sessions.SettleIff | nakama/programs/nakama/src/instructions/settle_usage.rs:100-237 | a settlement succeeds if and only if parent, facilitator, existing destination, cap and unlocked balance allow it; transfer and arithmetic never stand in the way |
| Sessions.SessionSurvivesResubscribe | nakama/programs/nakama/src/instructions/close_session.rs:38-58 | a session left open is there after a re-subscription, usage and cap unchanged, and exactly what it can settle then |
| Builders.ListAlivePaySessions | crates/nakama-client/src/resubscribe.rs:258-279 | the loop keeps exactly the Open sessions of the parent, in order |
| Builders.AliveExactly | crates/nakama-client/src/resubscribe.rs:266-278 | the filter keeps exactly the Open sessions of the parent, as often as they were returned |
| Views.Discriminants | crates/nakama-client/src/accounts.rs:147-158 | bytes 0 to 4 are the five states, and every other byte stays unknown |
| Builders.BuildChangeRate | crates/nakama-client/src/change_rate.rs:359-501 | the instruction list, or which refusal, for every state that can be observed |
| Builders.ChangeRateRefusals | crates/nakama-client/src/change_rate.rs:370-470 | each refusal if and only if its reason holds, whatever the cluster returns: unreadable plans, other mint, other subscriber, more than 4 sessions, a state byte above 4 |
| Builders.BuildResubscribe | crates/nakama-client/src/resubscribe.rs:433-496 | the Rust list, with the session count looked at only past a tombstone |
| Builders.ResubscribeRefusals | crates/nakama-client/src/resubscribe.rs:444-495 | refused for every state byte but 4, and for 4 with more than 4 sessions to close |
| Builders.BuildResubscribeTs | clients/ts/src/instructions/resubscribe.ts:246-351 | the TypeScript list for any number of periods, with the session count and the period range 1 to 255 checked before anything is built |
| Builders.ResubscribeBuildersAgree | clients/ts/src/instructions/resubscribe.ts:246-351 | exactly when the two builders emit a list, and that it is then the same list |
| BuilderSoundness.TransactionsAreRuns | crates/nakama-client/src/change_rate.rs:499-501 | a committed transaction is a stretch of a history, so every theorem about histories covers it |
| BuilderSoundness.ClosesRun | crates/nakama-client/src/change_rate.rs:442-454 | the closes emitted for listed sessions all succeed and remove exactly those sessions |
| BuilderSoundness.ChangeRateSound | crates/nakama-client/src/change_rate.rs:421-497 | given the new plan's guards and funds, the change-rate list commits if and only if the old subscription is live, its merchant's account exists and its vault is undisturbed, and ends with old record, vault, satellites and listed sessions gone and the new stream Active |
| BuilderSoundness.FreshMigrationRuns | crates/nakama-client/src/change_rate.rs:352-358 | with no old record the list is a subscribe that succeeds |
| BuilderSoundness.ResubscribeSound | crates/nakama-client/src/resubscribe.rs:444-494 | a re-subscribe list exists if and only if the record is absent or is a tombstone with no more sessions to close than fit; it then commits, removing exactly a tombstone's sessions when asked to and none otherwise |
| ReadModel.NeverSaturates | crates/nakama-client/src/computed_status.rs:177-233 | no saturating operation of the derivation saturates for a non-negative period and a difference that fits i64 |
| ReadModel.ClientsAgree | clients/ts/src/computedStatus.ts:121-260 | for every record, satellite and clock reading both clients show the same if and only if the record is outside the low-funds gap and below the u32 runway cap; inside the gap only Rust warns |
| ReadModel.ClientsDisagree | clients/ts/src/computedStatus.ts:198-214 | a reachable subscription that Rust shows as low on funds and TypeScript does not |
| ReadModel.CapsDisagree | crates/nakama-client/src/computed_status.rs:217-227 | a reachable subscription whose runway exceeds the u32 cap of Rust and not the TypeScript number |
| ReadModel.ReadModelAgrees | crates/nakama-client/src/computed_status.rs:126-157 | the status of every reachable subscription with its looked-up satellite is never Corrupt, matches its state, and shows the exact claimable amount |
| ReadModel.DisplayedIsPaid | crates/nakama-client/src/computed_status.rs:181-199 | the displayed claimable amount is positive and the merchant's account exists if and only if a correctly attached charge succeeds, and it is what that charge pays |
| ReadModel.BannerIff | crates/nakama-client/src/computed_status.rs:207-247 | over every history a running stream is shown low on funds if and only if more than 80% is withdrawn or less than 7 days remain, with the exact whole days up to the u32 cap |
| ReadModel.CountdownEnds | crates/nakama-client/src/computed_status.rs:138-141 | the countdown is never negative, and zero in the last second of grace and only then |
| ReadModel.CountdownReachesZero | crates/nakama-client/src/computed_status.rs:86-90 | a reachable subscription shown in grace with zero seconds remaining |
| ReadModel.RunwayBounds | crates/nakama-client/src/computed_status.rs:207-227 | the displayed days never accrue more than the remaining escrow, and one more day covers it unless the number is capped |
| Wire.IntegersRoundTrip | crates/nakama-client/src/accounts.rs:348-362 | u64 and i64 correspond one to one to eight little-endian bytes |
| Wire.EightBytes | clients/ts/src/instructions/resubscribe.ts:614-617 | the eight bytes of an integer are its base-256 digits, the least significant first |
| Wire.LittleEndian | nakama/programs/nakama/src/state.rs:440-455 | for any width, the byte at index i is the digit of weight 256 to the i, with the earlier bytes below it and the later ones above |
| Wire.TwosComplement | crates/nakama-client/src/accounts.rs:354-355 | a signed integer is the unsigned one, less 2 to the 64 exactly when the last byte is 128 or more |
| Layout.RoundTrip | nakama/programs/nakama/src/state.rs:424-472 | every record encodes to 202 bytes that decode to it |
| Layout.Canonical | crates/nakama-client/src/accounts.rs:113-114 | a body decodes if and only if it has 202 bytes, and is then the encoding of what it decodes to |
| Layout.StrictDecode | crates/nakama-client/src/accounts.rs:89-115 | the strict decoder yields a record if and only if owner, type tag and body are that record's |
| Layout.Offsets | nakama/programs/nakama/src/state.rs:406-424 | the byte range of every field of the 210-byte account, the parent at 8, the id at 136 and the state at 176 among them |
| Layout.ScanDecoded | crates/nakama-client/src/resubscribe.rs:258-279 | the full-decode scan keeps the Open records of the parent, or fails with the first account that does not decode |
| Layout.ScanOffsets | clients/ts/src/instructions/resubscribe.ts:411-427 | the byte-offset scan returns the ascending ids of accounts long enough whose state byte is zero |
| Layout.ScansKeep | clients/ts/src/instructions/resubscribe.ts:411-422 | which records and which ids each scan keeps, for any accounts, by state byte 0 and bytes 136 to 143 |
| Layout.Sorted | clients/ts/src/instructions/resubscribe.ts:424-426 | ascending, and the same ids with the same multiplicities |
| Layout.SortedUnique | clients/ts/src/instructions/resubscribe.ts:424-426 | two ascending lists of the same ids are equal, so any correct sort gives this result |
| Layout.ScannersAgree | clients/ts/src/instructions/resubscribe.ts:411-427 | on whatever the RPC filters let through, the Rust scan succeeds if and only if every account has 210 bytes, and the TypeScript scan then returns exactly its ids, ascending |
| SessionScan.ScansFindEverySession | crates/nakama-client/src/resubscribe.rs:213-280 | on the stored accounts of a reachable world both scans find every session of the subscription exactly once |

## Left out

- HTTP facilitator, authentication, configuration, demo scripts: input and output around the modelled core.
- RPC transport, base64, signing, message assembly and transaction size: an RPC read returns the model's state, and a list is executed against the state it was built from.
- Program-derived addresses, bumps and SHA-256 type tags: addresses are the keys that seed them, so they are injective, and a type tag is any eight bytes; base58 and the account-meta packing of optional accounts are not modelled either.
- Lamport rent, compute units and events: no property here depends on them; of rent only the pin of its recipient is modelled.
- Mints: there is one mint, so the mint checks, the cross-mint refusal on chain and the Token-2022 rejection never fire.
- The order among several violated account constraints that Anchor would report first: the model reports absent accounts, then existing ones, then constraints in declaration order.
- Freezing of token accounts, delegates and close authorities: wallets act only as owners.
- Liveness.NoStuckFunds: lets one token account serve as both destinations. Whether the framework version the program is locked to accepts the same mutable account twice is not settled by the repository; if it does not, different accounts are one more condition of a well-formed cancellation, which only matters where a merchant subscribes to a plan of their own.
- `rate_per_second`: kept as a field and as the subscribe guard `price / period >= 1`; nothing else reads it.
- Runs.RunInvariant: assumes that all tokens together fit u64, as a mint's supply does.
- Refusals.ChargeRefused: assumes now + period and now + seven days fit i64, as does Keeper.PredictAndAttach.
- Keeper.PredictAndAttach: assumes now + period and now + seven days fit i64; beyond that the checked additions of the hint and of the grace deadline fail.
- ReadModel.ClientsAgree: assumes a non-negative period and clock differences within i64; JavaScript's rounding of a runway above 2^53 days is not modelled.
- The TypeScript change-rate builder: only the Rust one is modelled.
- Byte layouts of Plan, Subscription and the two satellites: the same encoding rules with other fields.
