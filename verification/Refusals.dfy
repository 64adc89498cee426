/**
 * Why each instruction fails, in every state a forward-running clock can reach. The tables list the only errors that
 * can be reported, in the order the program looks; the clock, arithmetic and corrupted-record errors of the source
 * that are missing from them can never be seen.
 */
module Refusals {
  import opened Integers
  import opened Outcomes
  import opened State
  import opened StreamMath
  import opened Handlers
  import opened Books
  import opened Invariants
  import opened Runs
  import opened Settlement
  import opened Keeper
  import Liveness
  import opened Sessions

  predicate Owns(b: Bank, account: Key, owner: Key) {
    account in b.accounts && b.accounts[account].owner == owner
  }

  /** The instruction either succeeds or reports exactly `error`. */
  predicate OrElse<T>(outcome: Result<T>, error: Error) {
    outcome.Err? ==> outcome.error == error
  }

  // ----- plans and subscriptions -----

  function CreatePlanError(w: World, merchant: Key, planId: U64, price: U64, period: I64, ata: Key): Error {
    if ata !in w.bank.accounts then AccountNotInitialized
    else if PlanKey(merchant, planId) in w.plans then AccountInUse
    else if !Owns(w.bank, ata, merchant) then ConstraintTokenOwner
    else if period <= 0 then ZeroPeriod
    else ZeroPrice
  }

  function SubscribeError(w: World, k: SubKey, ata: Key, periods: U8): Error {
    if k.plan !in w.plans || ata !in w.bank.accounts then AccountNotInitialized
    else
      var p := w.plans[k.plan];
      if k in w.subs then AccountInUse
      else if !Owns(w.bank, ata, k.subscriber) then ConstraintTokenOwner
      else if periods == 0 then ZeroPeriodsToFund
      else if p.price < p.period then ZeroRatePerSecond
      else if p.price * periods > U64_MAX then MathOverflow
      else if w.bank.accounts[ata].amount < p.price * periods then InsufficientFunds
      else MathOverflow
  }

  lemma SubscribeRefusedAt(w: World, now: I64, k: SubKey, ata: Key, periods: U8)
    requires KeyOk(w, k) && (k.plan in w.plans ==> PlanOk(k.plan, w.plans[k.plan]))
    ensures OrElse(Step(w, now, Subscribe(k.subscriber, k.plan, ata, periods)), SubscribeError(w, k, ata, periods))
  {
    hide BookOf;
    assert SubKey(k.subscriber, k.plan) == k;
    if k.plan in w.plans { FloorReaches(w.plans[k.plan].price, w.plans[k.plan].period, 1); }
  }

  /** Why a plan or a subscription cannot be created. */
  lemma {:induction false} CreationRefused(r: Run, now: I64, k: SubKey, ata: Key, periods: U8, price: U64, period: I64)
    requires Funded(r)
    ensures OrElse(Step(After(r), now, CreatePlan(k.plan.merchant, k.plan.planId, price, period, ata)),
                   CreatePlanError(After(r), k.plan.merchant, k.plan.planId, price, period, ata))
    ensures OrElse(Step(After(r), now, Subscribe(k.subscriber, k.plan, ata, periods)), SubscribeError(After(r), k, ata, periods))
  {
    hide After, KeyOk, PlanOk, SubscribeStep, Supply, SubscribeError;
    RunInvariant(r);
    assert KeyOk(After(r), k);
    SubscribeRefusedAt(After(r), now, k, ata, periods);
  }

  // ----- money in and out -----

  function ChargeError(w: World, now: int, k: SubKey, plan: PlanKey, ata: Key, g: bool): Error
    requires Lives(w, k) && w.subs[k].state.Active? ==> w.subs[k].period > 0 && w.subs[k].streamStart <= now
  {
    if !Lives(w, k) || plan !in w.plans || ata !in w.bank.accounts then AccountNotInitialized
    else if g && w.subs[k].state.GracePeriod? then AccountInUse
    else if plan != k.plan then ConstraintHasOne
    else if ata != w.subs[k].merchantAta then AtaMismatch
    else if !w.subs[k].state.Active? then IllegalStateForCharge
    else if Claimable(w.subs[k], now) == 0 then InsufficientUnlockedFunds
    else if g then UnexpectedGraceSatellite
    else MissingGraceSatellite
  }

  lemma ChargeRefusedAt(w: World, now: I64, k: SubKey, plan: PlanKey, ata: Key, g: bool, active: int)
    requires Inv(w) && KeyOk(w, k) && Timely(w, k, now, active) && (k in w.subs ==> ClockHasRoom(w.subs[k], now))
    ensures Lives(w, k) && w.subs[k].state.Active? ==> w.subs[k].period > 0 && w.subs[k].streamStart <= now
    ensures OrElse(Step(w, now, ChargeIx(k, plan, ata, g)), ChargeError(w, now, k, plan, ata, g))
  {
    hide BookOf, Supply, Withdraw, NextChargeAt, Unlocked;
    if IsActive(w, k) { ChargeDecides(w, now, k, plan, ata, g, active); }
  }

  /** Why a charge fails: never for its arithmetic, and on a tombstone for the vault that is gone, not for the state. */
  lemma {:induction false} ChargeRefused(r: Run, now: I64, k: SubKey, plan: PlanKey, ata: Key, g: bool)
    requires Funded(r) && Forward(r) && Clock(r) <= now && (k in After(r).subs ==> ClockHasRoom(After(r).subs[k], now))
    ensures Lives(After(r), k) && After(r).subs[k].state.Active? ==>
      After(r).subs[k].period > 0 && After(r).subs[k].streamStart <= now
    ensures OrElse(Step(After(r), now, ChargeIx(k, plan, ata, g)), ChargeError(After(r), now, k, plan, ata, g))
  {
    hide Step, Inv, KeyOk, Timely, ChargeError, OrElse;
    Reached(r, k, now);
    ChargeRefusedAt(After(r), now, k, plan, ata, g, ActiveBy(r, k, now));
  }

  function TopUpError(w: World, subscriber: Key, k: SubKey, ata: Key, amount: U64, g: bool): Error {
    if !Lives(w, k) || ata !in w.bank.accounts || (g && !w.subs[k].state.GracePeriod?) then AccountNotInitialized
    else if subscriber != k.subscriber then ConstraintHasOne
    else if !Owns(w.bank, ata, subscriber) then ConstraintTokenOwner
    else if amount == 0 then IllegalAmountForTopUp
    else if w.subs[k].state.GracePeriod? && !g then MissingGraceSatellite
    else if w.bank.accounts[ata].amount < amount then InsufficientFunds
    else MathOverflow
  }

  lemma TopUpRefusedAt(w: World, now: I64, subscriber: Key, k: SubKey, ata: Key, amount: U64, g: bool)
    requires KeyOk(w, k) && Supply(w.bank) <= U64_MAX
    requires k in w.graced ==> w.graced[k].enteredGraceAt <= now
    ensures OrElse(Step(w, now, TopUpIx(subscriber, k, ata, amount, g)), TopUpError(w, subscriber, k, ata, amount, g))
  {
    hide BookOf, Supply;
    if k in w.bank.vaults && ata in w.bank.accounts { Liveness.RoomFor(w.bank, k, ata); }
  }

  /** Why a top-up fails. */
  lemma {:induction false} TopUpRefused(r: Run, now: I64, subscriber: Key, k: SubKey, ata: Key, amount: U64, g: bool)
    requires Funded(r) && Forward(r) && Clock(r) <= now
    ensures OrElse(Step(After(r), now, TopUpIx(subscriber, k, ata, amount, g)),
                   TopUpError(After(r), subscriber, k, ata, amount, g))
  {
    hide Step, Supply, KeyOk, TopUpError, OrElse;
    Reached(r, k, now);
    GraceBegan(After(r), k, now, ActiveBy(r, k, now));
    TopUpRefusedAt(After(r), now, subscriber, k, ata, amount, g);
  }

  lemma GraceBegan(w: World, k: SubKey, now: I64, active: int)
    requires KeyOk(w, k) && Timely(w, k, now, active)
    ensures k in w.graced ==> w.graced[k].enteredGraceAt <= now
  {
    hide BookOf, Unlocked;
  }

  // ----- pause, resume, cancel, cleanup -----

  function PauseError(w: World, merchant: Key, k: SubKey): Error {
    if k !in w.subs then AccountNotInitialized
    else if w.subs[k].state.Paused? then AccountInUse
    else if merchant != w.subs[k].merchant then UnauthorizedPause
    else IllegalStateForPause
  }

  function ResumeError(w: World, k: SubKey): Error {
    if k !in w.subs || !w.subs[k].state.Paused? then AccountNotInitialized else UnauthorizedResume
  }

  function CleanupError(w: World, subscriber: Key, k: SubKey): Error {
    if k !in w.subs then AccountNotInitialized
    else if subscriber != k.subscriber then UnauthorizedCleanup
    else IllegalStateForCleanup
  }

  lemma PauseRefusedAt(w: World, now: I64, who: Key, k: SubKey, active: int)
    requires KeyOk(w, k) && Timely(w, k, now, active) && now >= 0
    ensures OrElse(Step(w, now, Pause(who, k)), PauseError(w, who, k))
  {
    hide BookOf, Unlocked;
  }

  lemma ResumeRefusedAt(w: World, now: I64, who: Key, k: SubKey, active: int)
    requires KeyOk(w, k) && Timely(w, k, now, active) && now >= 0
    ensures OrElse(Step(w, now, Resume(who, k)), ResumeError(w, k))
  {
    hide BookOf, Unlocked;
  }

  lemma CleanupRefusedAt(w: World, now: I64, who: Key, k: SubKey)
    requires KeyOk(w, k)
    ensures OrElse(Step(w, now, Cleanup(who, k)), CleanupError(w, who, k))
  {
    hide BookOf;
  }

  /** Why a pause, a resume or a cleanup fails; a resume of anything but a paused record misses the satellite. */
  lemma {:induction false} StateChangeRefused(r: Run, now: I64, who: Key, k: SubKey)
    requires Funded(r) && Forward(r) && Clock(r) <= now
    ensures OrElse(Step(After(r), now, Pause(who, k)), PauseError(After(r), who, k))
    ensures OrElse(Step(After(r), now, Resume(who, k)), ResumeError(After(r), k))
    ensures OrElse(Step(After(r), now, Cleanup(who, k)), CleanupError(After(r), who, k))
  {
    hide Step, Inv, KeyOk, Timely, PauseError, ResumeError, CleanupError, OrElse;
    Reached(r, k, now);
    PauseRefusedAt(After(r), now, who, k, ActiveBy(r, k, now));
    ResumeRefusedAt(After(r), now, who, k, ActiveBy(r, k, now));
    CleanupRefusedAt(After(r), now, who, k);
  }

  function CancelError(w: World, signer: Key, k: SubKey, rentTo: Key, mAta: Key, sAta: Key, g: bool, p: bool): Error {
    if !Lives(w, k) || mAta !in w.bank.accounts || sAta !in w.bank.accounts
       || (g && !w.subs[k].state.GracePeriod?) || (p && !w.subs[k].state.Paused?) then AccountNotInitialized
    else if rentTo != k.subscriber then SubscriberAccountMismatch
    else if mAta != w.subs[k].merchantAta then ConstraintAddress
    else if !Owns(w.bank, sAta, k.subscriber) then ConstraintTokenOwner
    else if signer != k.subscriber && signer != w.subs[k].merchant then NoCancelAuthority
    else if w.subs[k].state.GracePeriod? && !g then MissingGraceSatellite
    else if w.subs[k].state.Paused? && !p then IllegalStateForCancel
    else NonEmptyAccount
  }

  lemma CancelGuardsRefuse(w: World, now: I64, signer: Key, k: SubKey, rentTo: Key, mAta: Key, sAta: Key, g: bool, p: bool,
                           active: int)
    requires KeyOk(w, k) && Timely(w, k, now, active) && now >= 0
    requires !Liveness.WellFormedCancel(w, k, signer, rentTo, mAta, sAta, g, p)
    ensures CancelGuards(w, now, signer, k, rentTo, mAta, sAta, g, p)
         == Err(CancelError(w, signer, k, rentTo, mAta, sAta, g, p))
  {
    hide BookOf, Unlocked;
  }

  lemma CancelRefusedAt(w: World, now: I64, signer: Key, k: SubKey, rentTo: Key, mAta: Key, sAta: Key, g: bool, p: bool,
                        active: int)
    requires KeyOk(w, k) && Timely(w, k, now, active) && now >= 0 && Supply(w.bank) <= U64_MAX
    ensures OrElse(Step(w, now, Cancel(signer, k, rentTo, mAta, sAta, g, p)), CancelError(w, signer, k, rentTo, mAta, sAta, g, p))
  {
    hide CancelGuards, WithdrawAny, Tombstone, Timely, BookOf, Supply;
    if Liveness.WellFormedCancel(w, k, signer, rentTo, mAta, sAta, g, p) {
      Liveness.CancelIff(w, now, k, signer, rentTo, mAta, sAta, g, p, active);
    } else {
      CancelGuardsRefuse(w, now, signer, k, rentTo, mAta, sAta, g, p, active);
    }
  }

  /** Why a cancellation fails. */
  lemma {:induction false} CancelRefused(r: Run, now: I64, signer: Key, k: SubKey, rentTo: Key, mAta: Key, sAta: Key, g: bool,
                                         p: bool)
    requires Funded(r) && Forward(r) && Clock(r) <= now
    ensures OrElse(Step(After(r), now, Cancel(signer, k, rentTo, mAta, sAta, g, p)),
                   CancelError(After(r), signer, k, rentTo, mAta, sAta, g, p))
  {
    hide Step, Supply, KeyOk, Timely, CancelError, OrElse;
    Reached(r, k, now);
    CancelRefusedAt(After(r), now, signer, k, rentTo, mAta, sAta, g, p, ActiveBy(r, k, now));
  }

  // ----- sessions -----

  function OpenSessionError(w: World, subscriber: Key, k: SubKey, id: U64): Error {
    if k !in w.subs then AccountNotInitialized
    else if SessionKey(k, id) in w.sessions then AccountInUse
    else if subscriber != k.subscriber then UnauthorizedOpenSession
    else if !w.subs[k].state.Active? then ParentNotActive
    else ReservationCapExceedsEscrow
  }

  function CloseSessionError(w: World, k: SubKey, id: U64): Error {
    if k !in w.subs || SessionKey(k, id) !in w.sessions then AccountNotInitialized else UnauthorizedClose
  }

  function SettleError(w: World, now: int, f: Key, k: SubKey, id: U64, ata: Key, amount: U64): Error
    requires Lives(w, k) && w.subs[k].state.Active? ==> w.subs[k].period > 0 && w.subs[k].streamStart <= now
  {
    if !Lives(w, k) || SessionKey(k, id) !in w.sessions || ata !in w.bank.accounts then AccountNotInitialized
    else
      var p := w.sessions[SessionKey(k, id)];
      if f != p.facilitator then UnauthorizedFacilitator
      else if ata != p.merchantAta then PaySessionMerchantAtaMismatch
      else if amount == 0 then IllegalAmountForSettle
      else if !w.subs[k].state.Active? then ParentNotActive
      else if p.reservationCap > 0 && p.usage + amount > U64_MAX then ArithmeticOverflow
      else if p.reservationCap > 0 && p.usage + amount > p.reservationCap then ReservationCapExceeded
      else if amount > Claimable(w.subs[k], now) then InsufficientUnlockedFunds
      else ArithmeticOverflow
  }

  lemma SettleRefusedAt(w: World, now: I64, f: Key, k: SubKey, id: U64, ata: Key, amount: U64, active: int)
    requires KeyOk(w, k) && Timely(w, k, now, active) && Supply(w.bank) <= U64_MAX
    requires SessionKey(k, id) in w.sessions ==> SessionOk(w, SessionKey(k, id), w.sessions[SessionKey(k, id)])
    ensures Lives(w, k) && w.subs[k].state.Active? ==> w.subs[k].period > 0 && w.subs[k].streamStart <= now
    ensures OrElse(Step(w, now, SettleUsage(f, k, id, ata, amount)), SettleError(w, now, f, k, id, ata, amount))
  {
    hide BookOf, Unlocked, Supply, SettleGuards, KeyOk, Timely, SessionOk;
    SettleGuardsRefuse(w, now, f, k, id, ata, amount, active);
    if SettleGuards(w, now, f, k, id, ata, amount).Ok? { Liveness.RoomFor(w.bank, k, ata); }
  }

  lemma SettleGuardsRefuse(w: World, now: I64, f: Key, k: SubKey, id: U64, ata: Key, amount: U64, active: int)
    requires KeyOk(w, k) && Timely(w, k, now, active)
    requires SessionKey(k, id) in w.sessions ==> SessionOk(w, SessionKey(k, id), w.sessions[SessionKey(k, id)])
    ensures Lives(w, k) && w.subs[k].state.Active? ==> w.subs[k].period > 0 && w.subs[k].streamStart <= now
    ensures var guards, error := SettleGuards(w, now, f, k, id, ata, amount), SettleError(w, now, f, k, id, ata, amount);
      && OrElse(guards, error)
      && (guards.Ok? ==>
            && k in w.subs && SessionKey(k, id) in w.sessions && k in w.bank.vaults && ata in w.bank.accounts
            && amount <= w.bank.vaults[k]
            && (w.sessions[SessionKey(k, id)].usage + amount > U64_MAX ==> error == ArithmeticOverflow))
  {
    hide BookOf, Accrued;
  }

  lemma SessionRefusedAt(w: World, now: I64, who: Key, k: SubKey, id: U64, f: Key, cap: U64)
    requires KeyOk(w, k)
    requires SessionKey(k, id) in w.sessions ==> SessionOk(w, SessionKey(k, id), w.sessions[SessionKey(k, id)])
    ensures OrElse(Step(w, now, OpenSession(who, k, id, f, cap)), OpenSessionError(w, who, k, id))
    ensures OrElse(Step(w, now, CloseSession(who, k, id)), CloseSessionError(w, k, id))
  {
    hide BookOf;
  }

  /** Why a session cannot be opened, closed or settled through. */
  lemma {:induction false} SessionRefused(r: Run, now: I64, who: Key, k: SubKey, id: U64, f: Key, cap: U64, ata: Key, amount: U64)
    requires Funded(r) && Forward(r) && Clock(r) <= now
    ensures OrElse(Step(After(r), now, OpenSession(who, k, id, f, cap)), OpenSessionError(After(r), who, k, id))
    ensures OrElse(Step(After(r), now, CloseSession(who, k, id)), CloseSessionError(After(r), k, id))
    ensures Lives(After(r), k) && After(r).subs[k].state.Active? ==>
      After(r).subs[k].period > 0 && After(r).subs[k].streamStart <= now
    ensures OrElse(Step(After(r), now, SettleUsage(f, k, id, ata, amount)), SettleError(After(r), now, f, k, id, ata, amount))
  {
    hide Step, Supply, KeyOk, Timely, SessionOk, OpenSessionError, CloseSessionError, SettleError, OrElse;
    Reached(r, k, now);
    SessionAt(r, SessionKey(k, id));
    SessionRefusedAt(After(r), now, who, k, id, f, cap);
    SettleRefusedAt(After(r), now, f, k, id, ata, amount, ActiveBy(r, k, now));
  }
}
