/**
 * What each instruction does to the accounts, as a function from the accounts to new accounts or the
 * error it reports. Guards come in the order the program meets them: accounts that must exist, accounts
 * that must not, constraints in declaration order, then the handler body.
 */
module Handlers {
  import opened Integers
  import opened Outcomes
  import opened State
  import opened StreamMath

  function Deposit(b: Bank, purpose: Purpose, k: SubKey, from: Key, amount: U64): Result<Bank>
    requires k in b.vaults && from in b.accounts
  {
    if amount > b.accounts[from].amount then Err(InsufficientFunds)
    else if b.vaults[k] + amount > U64_MAX then Err(TokenOverflow)
    else Ok(Bank(b.accounts[from := b.accounts[from].(amount := b.accounts[from].amount - amount)],
                 b.vaults[k := b.vaults[k] + amount],
                 Logged(b.journal, Escrow(purpose, k, from, b.accounts[from].owner, amount))))
  }

  function Withdraw(b: Bank, purpose: Purpose, k: SubKey, to: Key, amount: U64): Result<Bank>
    requires k in b.vaults && to in b.accounts
  {
    if amount > b.vaults[k] then Err(InsufficientFunds)
    else if b.accounts[to].amount + amount > U64_MAX then Err(TokenOverflow)
    else Ok(Bank(b.accounts[to := b.accounts[to].(amount := b.accounts[to].amount + amount)],
                 b.vaults[k := b.vaults[k] - amount],
                 Logged(b.journal, Escrow(purpose, k, to, b.accounts[to].owner, amount))))
  }

  function Transfer(b: Bank, owner: Key, from: Key, to: Key, amount: U64): Result<Bank> {
    if from !in b.accounts || to !in b.accounts then Err(AccountNotInitialized)
    else if b.accounts[from].owner != owner then Err(ConstraintTokenOwner)
    else if amount > b.accounts[from].amount then Err(InsufficientFunds)
    else
      var debited := b.accounts[from := b.accounts[from].(amount := b.accounts[from].amount - amount)];
      if debited[to].amount + amount > U64_MAX then Err(TokenOverflow)
      else Ok(b.(accounts := debited[to := debited[to].(amount := debited[to].amount + amount)],
                 journal := Logged(b.journal, Direct(from, to, amount))))
  }

  function TokenTransferStep(w: World, owner: Key, from: Key, to: Key, amount: U64): Result<World> {
    var b :- Transfer(w.bank, owner, from, to, amount);
    Ok(w.(bank := b))
  }

  function DonateStep(w: World, owner: Key, from: Key, k: SubKey, amount: U64): Result<World> {
    if from !in w.bank.accounts || k !in w.bank.vaults then Err(AccountNotInitialized) else
    :- Need(w.bank.accounts[from].owner == owner, ConstraintTokenOwner);
    var b :- Deposit(w.bank, Donation, k, from, amount);
    Ok(w.(bank := b))
  }

  function OpenTokenAccountStep(w: World, account: Key, owner: Key): Result<World> {
    if account in w.bank.accounts then Err(AccountInUse)
    else Ok(w.(bank := w.bank.(accounts := w.bank.accounts[account := TokenAccount(owner, 0)])))
  }

  /** The token program closes only empty accounts. */
  function CloseTokenAccountStep(w: World, owner: Key, account: Key): Result<World> {
    if account !in w.bank.accounts then Err(AccountNotInitialized) else
    :- Need(w.bank.accounts[account].owner == owner, ConstraintTokenOwner);
    :- Need(w.bank.accounts[account].amount == 0, NonEmptyAccount);
    Ok(w.(bank := w.bank.(accounts := w.bank.accounts - {account})))
  }

  function AssignTokenAccountStep(w: World, owner: Key, account: Key, newOwner: Key): Result<World> {
    if account !in w.bank.accounts then Err(AccountNotInitialized) else
    :- Need(w.bank.accounts[account].owner == owner, ConstraintTokenOwner);
    Ok(w.(bank := w.bank.(accounts := w.bank.accounts[account := w.bank.accounts[account].(owner := newOwner)])))
  }

  function CreatePlanStep(w: World, merchant: Key, planId: U64, price: U64, period: I64, merchantAta: Key)
    : Result<World>
  {
    if merchantAta !in w.bank.accounts then Err(AccountNotInitialized) else
    :- Need(PlanKey(merchant, planId) !in w.plans, AccountInUse);
    :- Need(w.bank.accounts[merchantAta].owner == merchant, ConstraintTokenOwner);
    :- Need(period > 0, ZeroPeriod);
    :- Need(price > 0, ZeroPrice);
    Ok(w.(plans := w.plans[PlanKey(merchant, planId) := Plan(merchant, planId, price, period, USDC_MINT, merchantAta)]))
  }

  /** The checks of `subscribe`; the value is the prefund. */
  function SubscribeGuards(w: World, subscriber: Key, plan: PlanKey, subscriberAta: Key, periods: U8): Result<U64> {
    var k := SubKey(subscriber, plan);
    :- Need(plan in w.plans && subscriberAta in w.bank.accounts, AccountNotInitialized);
    :- Need(k !in w.subs && k !in w.bank.vaults, AccountInUse);
    var p := w.plans[plan];
    :- Need(w.bank.accounts[subscriberAta].owner == subscriber, ConstraintTokenOwner);
    :- Need(p.period > 0, ZeroPeriod);
    :- Need(periods >= 1, ZeroPeriodsToFund);
    :- Need(p.price / p.period >= 1, ZeroRatePerSecond);
    :- Need(p.price * periods <= U64_MAX, MathOverflow);
    Ok(p.price * periods)
  }

  /** The record a subscription starts with. */
  function Started(subscriber: Key, plan: PlanKey, p: Plan, deposited: U64, rate: U64, nextChargeAt: I64, now: I64)
    : Subscription
  {
    Subscription(nextChargeAt, subscriber, plan, p.price, p.period, p.tokenMint, p.merchant, p.merchantAta,
                 Active, now, 0, deposited, 0, rate, now)
  }

  function SubscribeStep(w: World, now: I64, subscriber: Key, plan: PlanKey, subscriberAta: Key, periods: U8)
    : Result<World>
  {
    var deposited :- SubscribeGuards(w, subscriber, plan, subscriberAta, periods);
    var k, p := SubKey(subscriber, plan), w.plans[plan];
    var b :- Deposit(w.bank.(vaults := w.bank.vaults[k := 0]), Prefund, k, subscriberAta, deposited);
    :- Need(now + p.period <= I64_MAX, MathOverflow);
    Ok(w.(bank := b, subs := w.subs[k := Started(subscriber, plan, p, deposited, p.price / p.period, now + p.period, now)]))
  }

  /** Seconds between the stream's anchor and `now`; the subtraction panics when it leaves i64. */
  function Elapsed(s: Subscription, now: I64): Result<I64> {
    if now < s.streamStart then Err(ClockBackwards) else
    :- Need(s.period > 0, InvalidPeriod);
    :- Need(now - s.streamStart <= I64_MAX, Panicked);
    Ok(now - s.streamStart)
  }

  /** The seconds the settled amount covers: the inverse of the stream formula. */
  function CoveredSeconds(withdrawn: nat, price: nat, period: nat): nat
    requires price > 0
  {
    withdrawn * period / price
  }

  /** The checks of `charge`; the value is the amount unlocked by `now`, above what has been withdrawn. */
  function ChargeGuards(w: World, now: I64, k: SubKey, plan: PlanKey, merchantAta: Key, attachGrace: bool): Result<U64> {
    if k !in w.subs || plan !in w.plans || k !in w.bank.vaults || merchantAta !in w.bank.accounts
    then Err(AccountNotInitialized) else
    :- Need(attachGrace ==> k !in w.graced, AccountInUse);
    var s := w.subs[k];
    :- Need(plan == s.plan, ConstraintHasOne);
    :- Need(merchantAta == s.merchantAta, AtaMismatch);
    :- Need(s.state.Active?, IllegalStateForCharge);
    var elapsed :- Elapsed(s, now);
    var unlocked := Unlocked(elapsed, s.price, s.period, s.deposited);
    :- Need(s.withdrawn <= unlocked, MathOverflow);
    :- Need(s.withdrawn < unlocked, InsufficientUnlockedFunds);
    Ok(unlocked)
  }

  /** The keeper hint: one period after the second the settled amount covers. */
  function NextChargeAt(s: Subscription, withdrawn: U64): Result<I64>
    requires s.period > 0
  {
    if s.price == 0 then Err(MathOverflow) else
    var covered := CoveredSeconds(withdrawn, s.price, s.period);
    :- Need(covered <= I64_MAX && s.streamStart + covered <= I64_MAX && s.streamStart + covered + s.period <= I64_MAX,
            MathOverflow);
    Ok(s.streamStart + covered + s.period)
  }

  function Settled(s: Subscription, now: I64, withdrawn: U64, nextChargeAt: I64): Subscription {
    s.(withdrawn := withdrawn, lastChargeAt := now, nextChargeAt := nextChargeAt)
  }

  /** What `charge` writes once the transfer is through: the books, then the grace period if the stream is exhausted. */
  function ChargeTail(w: World, now: I64, k: SubKey, unlocked: U64, attachGrace: bool): Result<World>
    requires k in w.subs && w.subs[k].period > 0
  {
    var s := w.subs[k];
    var next :- NextChargeAt(s, unlocked);
    if unlocked == s.deposited then
      :- Need(now + GRACE_DURATION <= I64_MAX, MathOverflow);
      :- Need(attachGrace, MissingGraceSatellite);
      Ok(w.(subs := w.subs[k := Settled(s, now, unlocked, next).(state := GracePeriod)],
            graced := w.graced[k := GracedSubscription(k, now, now + GRACE_DURATION)]))
    else
      :- Need(!attachGrace, UnexpectedGraceSatellite);
      Ok(w.(subs := w.subs[k := Settled(s, now, unlocked, next)]))
  }

  function ChargeStep(w: World, now: I64, k: SubKey, plan: PlanKey, merchantAta: Key, attachGrace: bool): Result<World> {
    var unlocked :- ChargeGuards(w, now, k, plan, merchantAta, attachGrace);
    var b :- Withdraw(w.bank, Purpose.Charge, k, merchantAta, unlocked - w.subs[k].withdrawn);
    ChargeTail(w.(bank := b), now, k, unlocked, attachGrace)
  }

  function TopUpStep(w: World, now: I64, subscriber: Key, k: SubKey, subscriberAta: Key, amount: U64, attachGrace: bool)
    : Result<World>
  {
    if k !in w.subs || k !in w.bank.vaults || subscriberAta !in w.bank.accounts || (attachGrace && k !in w.graced)
    then Err(AccountNotInitialized) else
    var s := w.subs[k];
    :- Need(subscriber == s.subscriber, ConstraintHasOne);
    :- Need(w.bank.accounts[subscriberAta].owner == subscriber, ConstraintTokenOwner);
    :- Need(amount > 0, IllegalAmountForTopUp);
    :- Need(s.state.Active? || s.state.Paused? || s.state.GracePeriod?, IllegalStateForTopUp);
    :- Need(s.state.GracePeriod? ==> attachGrace, MissingGraceSatellite);
    var b :- Deposit(w.bank, Purpose.TopUp, k, subscriberAta, amount);
    :- Need(s.deposited + amount <= U64_MAX, MathOverflow);
    var s1 := s.(deposited := s.deposited + amount);
    var s2 :- if s.state.GracePeriod? then Recovered(s1, now, w.graced[k].enteredGraceAt) else Ok(s1);
    Ok(w.(bank := b, subs := w.subs[k := s2], graced := if attachGrace then w.graced - {k} else w.graced))
  }

  /** Back to Active with the anchor moved past the time since `since`. */
  function Recovered(s: Subscription, now: I64, since: I64): Result<Subscription> {
    if now < since then Err(ClockBackwards) else
    :- Need(now - since <= I64_MAX && s.streamStart + (now - since) <= I64_MAX, MathOverflow);
    Ok(s.(streamStart := s.streamStart + (now - since), state := Active))
  }

  function PauseStep(w: World, now: I64, merchant: Key, k: SubKey): Result<World> {
    if k !in w.subs then Err(AccountNotInitialized) else
    :- Need(k !in w.paused, AccountInUse);
    var s := w.subs[k];
    :- Need(merchant == s.merchant, UnauthorizedPause);
    :- Need(s.state.Active?, IllegalStateForPause);
    var _ :- Elapsed(s, now);
    Ok(w.(subs := w.subs[k := s.(state := Paused)], paused := w.paused[k := PausedSubscription(k, now)]))
  }

  function ResumeStep(w: World, now: I64, merchant: Key, k: SubKey): Result<World> {
    if k !in w.subs || k !in w.paused then Err(AccountNotInitialized) else
    var s := w.subs[k];
    :- Need(merchant == s.merchant, UnauthorizedResume);
    :- Need(w.paused[k].subscription == k, IllegalStateForResume);
    :- Need(s.state.Paused?, IllegalStateForResume);
    var s1 :- Recovered(s, now, w.paused[k].pausedAt);
    Ok(w.(subs := w.subs[k := s1], paused := w.paused - {k}))
  }

  /** The moment up to which a cancellation lets the stream run. */
  function EffectiveNow(w: World, now: I64, k: SubKey, attachGrace: bool, attachPaused: bool): Result<I64>
    requires k in w.subs && (attachGrace ==> k in w.graced) && (attachPaused ==> k in w.paused)
  {
    match w.subs[k].state
    case Active => Ok(now)
    case GracePeriod =>
      :- Need(attachGrace, MissingGraceSatellite);
      Ok(if now <= w.graced[k].graceUntil then now else w.graced[k].graceUntil)
    case Paused =>
      :- Need(attachPaused, IllegalStateForCancel);
      Ok(w.paused[k].pausedAt)
    case _ => Err(IllegalStateForCancel)
  }

  /** The account constraints and the polymorphic signer check of `cancel`. */
  function CancelAccounts(w: World, signer: Key, k: SubKey, rentTo: Key, merchantAta: Key, subscriberAta: Key,
                          attachGrace: bool, attachPaused: bool): Result<()>
  {
    if k !in w.subs || k !in w.bank.vaults || merchantAta !in w.bank.accounts || subscriberAta !in w.bank.accounts
       || (attachGrace && k !in w.graced) || (attachPaused && k !in w.paused) then Err(AccountNotInitialized) else
    var s := w.subs[k];
    :- Need(rentTo == s.subscriber, SubscriberAccountMismatch);
    :- Need(merchantAta == s.merchantAta, ConstraintAddress);
    :- Need(w.bank.accounts[subscriberAta].owner == s.subscriber, ConstraintTokenOwner);
    :- Need(attachPaused ==> w.paused[k].subscription == k, IllegalStateForCancel);
    :- Need(signer == s.subscriber || signer == s.merchant, NoCancelAuthority);
    Ok(())
  }

  /** The checks of `cancel`; the value is the amount unlocked by the effective end of the stream. */
  function CancelGuards(w: World, now: I64, signer: Key, k: SubKey, rentTo: Key, merchantAta: Key, subscriberAta: Key,
                        attachGrace: bool, attachPaused: bool): Result<U64>
  {
    var _ :- CancelAccounts(w, signer, k, rentTo, merchantAta, subscriberAta, attachGrace, attachPaused);
    var s := w.subs[k];
    :- Need(s.state.Active? || s.state.Paused? || s.state.GracePeriod?, IllegalStateForCancel);
    :- Need(s.streamStart <= now, ClockBackwards);
    :- Need(s.period > 0, InvalidPeriod);
    var effectiveNow :- EffectiveNow(w, now, k, attachGrace, attachPaused);
    var elapsed :- Elapsed(s, effectiveNow);
    var unlocked := Unlocked(elapsed, s.price, s.period, s.deposited);
    :- Need(s.withdrawn <= unlocked, MathOverflow);
    Ok(unlocked)
  }

  function WithdrawAny(b: Bank, purpose: Purpose, k: SubKey, to: Key, amount: U64): Result<Bank>
    requires k in b.vaults && to in b.accounts
  {
    if amount > 0 then Withdraw(b, purpose, k, to, amount) else Ok(b)
  }

  /** The empty vault and the attached satellites are closed; the subscription stays as a tombstone. */
  function Tombstone(w: World, now: I64, k: SubKey, unlocked: U64, attachGrace: bool, attachPaused: bool): Result<World>
    requires k in w.subs && k in w.bank.vaults
  {
    if w.bank.vaults[k] != 0 then Err(NonEmptyAccount) else
    Ok(w.(subs := w.subs[k := w.subs[k].(state := Cancelled, lastChargeAt := now, withdrawn := unlocked)],
          bank := w.bank.(vaults := w.bank.vaults - {k}),
          graced := if attachGrace then w.graced - {k} else w.graced,
          paused := if attachPaused then w.paused - {k} else w.paused))
  }

  function CancelStep(w: World, now: I64, signer: Key, k: SubKey, rentTo: Key, merchantAta: Key, subscriberAta: Key,
                      attachGrace: bool, attachPaused: bool): Result<World>
  {
    var unlocked :- CancelGuards(w, now, signer, k, rentTo, merchantAta, subscriberAta, attachGrace, attachPaused);
    var b1 :- WithdrawAny(w.bank, Claim, k, merchantAta, unlocked - w.subs[k].withdrawn);
    var b2 :- WithdrawAny(b1, Refund, k, subscriberAta, w.subs[k].deposited - unlocked);
    Tombstone(w.(bank := b2), now, k, unlocked, attachGrace, attachPaused)
  }

  function CleanupStep(w: World, subscriber: Key, k: SubKey): Result<World> {
    if k !in w.subs then Err(AccountNotInitialized) else
    :- Need(subscriber == w.subs[k].subscriber, UnauthorizedCleanup);
    :- Need(w.subs[k].state.Cancelled? || w.subs[k].state.Exhausted?, IllegalStateForCleanup);
    Ok(w.(subs := w.subs - {k}))
  }

  function OpenSessionStep(w: World, now: I64, subscriber: Key, k: SubKey, sessionId: U64, facilitator: Key, cap: U64)
    : Result<World>
  {
    if k !in w.subs then Err(AccountNotInitialized) else
    :- Need(SessionKey(k, sessionId) !in w.sessions, AccountInUse);
    var s := w.subs[k];
    :- Need(subscriber == s.subscriber, UnauthorizedOpenSession);
    :- Need(s.state.Active?, ParentNotActive);
    :- Need(s.withdrawn <= s.deposited, ArithmeticOverflow);
    :- Need(cap == 0 || cap <= s.deposited - s.withdrawn, ReservationCapExceedsEscrow);
    Ok(w.(sessions := w.sessions[SessionKey(k, sessionId) :=
      PaySession(k, s.merchant, s.merchantAta, facilitator, sessionId, now, 0, 0, cap, Open)]))
  }

  function CloseSessionStep(w: World, subscriber: Key, k: SubKey, sessionId: U64): Result<World> {
    var sk := SessionKey(k, sessionId);
    :- Need(k in w.subs && sk in w.sessions, AccountNotInitialized);
    :- Need(subscriber == w.subs[k].subscriber, UnauthorizedClose);
    :- Need(w.sessions[sk].subscription == k, PaySessionParentMismatch);
    :- Need(w.sessions[sk].state.Open?, IllegalStateForClose);
    Ok(w.(sessions := w.sessions - {sk}))
  }

  /** The checks of `settle_usage`. */
  function SettleGuards(w: World, now: I64, facilitator: Key, k: SubKey, sessionId: U64, merchantAta: Key, amount: U64)
    : Result<()>
  {
    var sk := SessionKey(k, sessionId);
    :- Need(k in w.subs && sk in w.sessions && k in w.bank.vaults && merchantAta in w.bank.accounts, AccountNotInitialized);
    var s := w.subs[k];
    var session := w.sessions[sk];
    :- Need(session.subscription == k, PaySessionParentMismatch);
    :- Need(session.facilitator == facilitator, UnauthorizedFacilitator);
    :- Need(merchantAta == session.merchantAta, PaySessionMerchantAtaMismatch);
    :- Need(amount > 0, IllegalAmountForSettle);
    :- Need(s.state.Active?, ParentNotActive);
    :- Need(session.state.Open?, IllegalStateForSettle);
    :- Need(session.reservationCap > 0 ==> session.usage + amount <= U64_MAX, ArithmeticOverflow);
    :- Need(session.reservationCap > 0 ==> session.usage + amount <= session.reservationCap, ReservationCapExceeded);
    var elapsed :- Elapsed(s, now);
    var unlocked := Unlocked(elapsed, s.price, s.period, s.deposited);
    :- Need(s.withdrawn <= unlocked, ArithmeticOverflow);
    :- Need(amount <= unlocked - s.withdrawn, InsufficientUnlockedFunds);
    Ok(())
  }

  /** What `settle_usage` writes once the transfer is through, ending the lock. */
  function SettleTail(w: World, now: I64, k: SubKey, sessionId: U64, amount: U64): Result<World>
    requires k in w.subs && SessionKey(k, sessionId) in w.sessions && w.subs[k].withdrawn + amount <= U64_MAX
  {
    var sk := SessionKey(k, sessionId);
    :- Need(w.sessions[sk].usage + amount <= U64_MAX, ArithmeticOverflow);
    Ok(w.(subs := w.subs[k := w.subs[k].(withdrawn := w.subs[k].withdrawn + amount)],
          sessions := w.sessions[sk :=
            w.sessions[sk].(usage := w.sessions[sk].usage + amount, lastSettleAt := now, state := Open)]))
  }

  function SettleUsageStep(w: World, now: I64, facilitator: Key, k: SubKey, sessionId: U64, merchantAta: Key, amount: U64)
    : Result<World>
  {
    var _ :- SettleGuards(w, now, facilitator, k, sessionId, merchantAta, amount);
    var sk := SessionKey(k, sessionId);
    var b :- Withdraw(w.bank, Settle(sessionId), k, merchantAta, amount);
    var locked := w.sessions[sk := w.sessions[sk].(state := Settling)];
    SettleTail(w.(sessions := locked, bank := b), now, k, sessionId, amount)
  }

  /** One instruction executed at clock reading `now`. */
  function Step(w: World, now: I64, ix: Instruction): Result<World> {
    match ix
    case CreatePlan(m, id, price, period, ata) => CreatePlanStep(w, m, id, price, period, ata)
    case Subscribe(s, plan, ata, n) => SubscribeStep(w, now, s, plan, ata, n)
    case ChargeIx(k, plan, ata, g) => ChargeStep(w, now, k, plan, ata, g)
    case TopUpIx(s, k, ata, amount, g) => TopUpStep(w, now, s, k, ata, amount, g)
    case Pause(m, k) => PauseStep(w, now, m, k)
    case Resume(m, k) => ResumeStep(w, now, m, k)
    case Cancel(signer, k, rentTo, mAta, sAta, g, p) => CancelStep(w, now, signer, k, rentTo, mAta, sAta, g, p)
    case Cleanup(s, k) => CleanupStep(w, s, k)
    case OpenSession(s, k, id, f, cap) => OpenSessionStep(w, now, s, k, id, f, cap)
    case CloseSession(s, k, id) => CloseSessionStep(w, s, k, id)
    case SettleUsage(f, k, id, ata, amount) => SettleUsageStep(w, now, f, k, id, ata, amount)
    case TokenTransfer(owner, from, to, amount) => TokenTransferStep(w, owner, from, to, amount)
    case Donate(owner, from, k, amount) => DonateStep(w, owner, from, k, amount)
    case OpenTokenAccount(account, owner) => OpenTokenAccountStep(w, account, owner)
    case CloseTokenAccount(owner, account) => CloseTokenAccountStep(w, owner, account)
    case AssignTokenAccount(owner, account, newOwner) => AssignTokenAccountStep(w, owner, account, newOwner)
  }

  /** A transaction: all instructions at one clock reading, in order; the first error aborts it. */
  function Transact(w: World, now: I64, ixs: seq<Instruction>): Result<World>
    decreases |ixs|
  {
    if ixs == [] then Ok(w)
    else
      var w1 :- Step(w, now, ixs[0]);
      Transact(w1, now, ixs[1..])
  }
}
