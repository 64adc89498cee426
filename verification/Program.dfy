/**
 * The program as it runs: accounts are updated in place, one write at a time, with the checked u128/i64
 * arithmetic of the source. A handler that fails midway leaves its partial writes behind; `Submit`,
 * the runtime's transaction boundary, restores the accounts. Every handler meets its entry in `Handlers`.
 */
module Program {
  import opened Integers
  import opened Outcomes
  import opened State
  import opened StreamMath
  import Handlers

  /** The method succeeded exactly when the specification does, with the same accounts or the same error. */
  ghost predicate Meets<T>(r: Result<()>, after: T, spec: Result<T>) {
    match spec
    case Ok(w) => r.Ok? && after == w
    case Err(e) => r == Err(e)
  }

  class Ledger {
    var plans: map<PlanKey, Plan>
    var subs: map<SubKey, Subscription>
    var vaults: map<SubKey, U64>
    var graced: map<SubKey, GracedSubscription>
    var paused: map<SubKey, PausedSubscription>
    var sessions: map<SessionKey, PaySession>
    var accounts: map<Key, TokenAccount>
    var journal: Journal

    function Contents(): World
      reads this
    {
      World(plans, subs, graced, paused, sessions, Tokens())
    }

    function Tokens(): Bank
      reads this
    {
      Bank(accounts, vaults, journal)
    }

    constructor (accounts: map<Key, TokenAccount>)
      ensures Contents() == Fresh(accounts)
    {
      plans, subs, vaults, graced, paused, sessions := map[], map[], map[], map[], map[], map[];
      this.accounts, journal := accounts, Blank;
    }

    /** The wallet-signed transfer into a vault. */
    method TransferIn(purpose: Purpose, k: SubKey, from: Key, amount: U64) returns (r: Result<()>)
      requires k in vaults && from in accounts
      modifies this`accounts, this`vaults, this`journal
      ensures Meets(r, Tokens(), Handlers.Deposit(old(Tokens()), purpose, k, from, amount))
    {
      if amount > accounts[from].amount { return Err(InsufficientFunds); }
      if vaults[k] + amount > U64_MAX { return Err(TokenOverflow); }
      accounts := accounts[from := accounts[from].(amount := accounts[from].amount - amount)];
      vaults := vaults[k := vaults[k] + amount];
      journal := Logged(journal, Escrow(purpose, k, from, accounts[from].owner, amount));
      r := Ok(());
    }

    /** The transfer out of a vault, signed by the subscription's program address. */
    method TransferOut(purpose: Purpose, k: SubKey, to: Key, amount: U64) returns (r: Result<()>)
      requires k in vaults && to in accounts
      modifies this`accounts, this`vaults, this`journal
      ensures Meets(r, Tokens(), Handlers.Withdraw(old(Tokens()), purpose, k, to, amount))
    {
      if amount > vaults[k] { return Err(InsufficientFunds); }
      if accounts[to].amount + amount > U64_MAX { return Err(TokenOverflow); }
      vaults := vaults[k := vaults[k] - amount];
      accounts := accounts[to := accounts[to].(amount := accounts[to].amount + amount)];
      journal := Logged(journal, Escrow(purpose, k, to, accounts[to].owner, amount));
      r := Ok(());
    }

    method TokenTransfer(owner: Key, from: Key, to: Key, amount: U64) returns (r: Result<()>)
      modifies this
      ensures Meets(r, Contents(), Handlers.TokenTransferStep(old(Contents()), owner, from, to, amount))
    {
      if from !in accounts || to !in accounts { return Err(AccountNotInitialized); }
      if accounts[from].owner != owner { return Err(ConstraintTokenOwner); }
      if amount > accounts[from].amount { return Err(InsufficientFunds); }
      accounts := accounts[from := accounts[from].(amount := accounts[from].amount - amount)];
      if accounts[to].amount + amount > U64_MAX { return Err(TokenOverflow); }
      accounts := accounts[to := accounts[to].(amount := accounts[to].amount + amount)];
      journal := Logged(journal, Direct(from, to, amount));
      r := Ok(());
    }

    method Donate(owner: Key, from: Key, k: SubKey, amount: U64) returns (r: Result<()>)
      modifies this
      ensures Meets(r, Contents(), Handlers.DonateStep(old(Contents()), owner, from, k, amount))
    {
      if from !in accounts || k !in vaults { return Err(AccountNotInitialized); }
      if accounts[from].owner != owner { return Err(ConstraintTokenOwner); }
      r := TransferIn(Donation, k, from, amount);
    }

    method OpenTokenAccount(account: Key, owner: Key) returns (r: Result<()>)
      modifies this
      ensures Meets(r, Contents(), Handlers.OpenTokenAccountStep(old(Contents()), account, owner))
    {
      if account in accounts { return Err(AccountInUse); }
      accounts := accounts[account := TokenAccount(owner, 0)];
      r := Ok(());
    }

    method CloseTokenAccount(owner: Key, account: Key) returns (r: Result<()>)
      modifies this
      ensures Meets(r, Contents(), Handlers.CloseTokenAccountStep(old(Contents()), owner, account))
    {
      if account !in accounts { return Err(AccountNotInitialized); }
      if accounts[account].owner != owner { return Err(ConstraintTokenOwner); }
      if accounts[account].amount != 0 { return Err(NonEmptyAccount); }
      accounts := accounts - {account};
      r := Ok(());
    }

    method AssignTokenAccount(owner: Key, account: Key, newOwner: Key) returns (r: Result<()>)
      modifies this
      ensures Meets(r, Contents(), Handlers.AssignTokenAccountStep(old(Contents()), owner, account, newOwner))
    {
      if account !in accounts { return Err(AccountNotInitialized); }
      if accounts[account].owner != owner { return Err(ConstraintTokenOwner); }
      accounts := accounts[account := accounts[account].(owner := newOwner)];
      r := Ok(());
    }

    method CreatePlan(merchant: Key, planId: U64, price: U64, period: I64, merchantAta: Key) returns (r: Result<()>)
      modifies this
      ensures Meets(r, Contents(), Handlers.CreatePlanStep(old(Contents()), merchant, planId, price, period, merchantAta))
    {
      var pk := PlanKey(merchant, planId);
      if merchantAta !in accounts { return Err(AccountNotInitialized); }
      if pk in plans { return Err(AccountInUse); }
      if accounts[merchantAta].owner != merchant { return Err(ConstraintTokenOwner); }
      if !(period > 0) { return Err(ZeroPeriod); }
      if !(price > 0) { return Err(ZeroPrice); }
      plans := plans[pk := Plan(merchant, planId, price, period, USDC_MINT, merchantAta)];
      r := Ok(());
    }

    method SubscribeGuards(subscriber: Key, plan: PlanKey, subscriberAta: Key, periods: U8) returns (r: Result<U64>)
      ensures r == Handlers.SubscribeGuards(Contents(), subscriber, plan, subscriberAta, periods)
    {
      var k := SubKey(subscriber, plan);
      if plan !in plans || subscriberAta !in accounts { return Err(AccountNotInitialized); }
      if k in subs || k in vaults { return Err(AccountInUse); }
      var p := plans[plan];
      if accounts[subscriberAta].owner != subscriber { return Err(ConstraintTokenOwner); }
      if !(p.period > 0) { return Err(ZeroPeriod); }
      if !(periods >= 1) { return Err(ZeroPeriodsToFund); }
      var ratePerSecond := p.price / p.period;
      if !(ratePerSecond >= 1) { return Err(ZeroRatePerSecond); }
      if p.price * periods > U64_MAX { return Err(MathOverflow); }
      r := Ok(p.price * periods);
    }

    method Subscribe(now: I64, subscriber: Key, plan: PlanKey, subscriberAta: Key, periods: U8) returns (r: Result<()>)
      modifies this
      ensures Meets(r, Contents(), Handlers.SubscribeStep(old(Contents()), now, subscriber, plan, subscriberAta, periods))
    {
      var deposited :- SubscribeGuards(subscriber, plan, subscriberAta, periods);
      var k, p := SubKey(subscriber, plan), plans[plan];
      vaults := vaults[k := 0];
      var _ :- TransferIn(Prefund, k, subscriberAta, deposited);
      if now + p.period > I64_MAX { return Err(MathOverflow); }
      subs := subs[k := Handlers.Started(subscriber, plan, p, deposited, p.price / p.period, now + p.period, now)];
      r := Ok(());
    }

    /**
     * `(elapsed as u128).checked_mul(price)?.checked_div(period)?`, capped by the deposit. The overflow
     * arm of the source is dead: the product of a u64 and a non-negative i64 fits u128.
     */
    method StreamUnlocked(s: Subscription, elapsed: I64) returns (unlocked: U64)
      requires s.period > 0 && elapsed >= 0
      ensures unlocked == Unlocked(elapsed, s.price, s.period, s.deposited)
    {
      ProductFits(elapsed, s.price);
      var accrued := CheckedMulDiv(elapsed, s.price, s.period);
      unlocked := Min(accrued.value, s.deposited);
    }

    method ChargeGuards(now: I64, k: SubKey, plan: PlanKey, merchantAta: Key, attachGrace: bool) returns (r: Result<U64>)
      ensures r == Handlers.ChargeGuards(Contents(), now, k, plan, merchantAta, attachGrace)
    {
      if k !in subs || plan !in plans || k !in vaults || merchantAta !in accounts { return Err(AccountNotInitialized); }
      if attachGrace && k in graced { return Err(AccountInUse); }
      var s := subs[k];
      if plan != s.plan { return Err(ConstraintHasOne); }
      if merchantAta != s.merchantAta { return Err(AtaMismatch); }
      if !s.state.Active? { return Err(IllegalStateForCharge); }
      if !(now >= s.streamStart) { return Err(ClockBackwards); }
      if !(s.period > 0) { return Err(InvalidPeriod); }
      if now - s.streamStart > I64_MAX { return Err(Panicked); }
      var unlocked := StreamUnlocked(s, now - s.streamStart);
      if unlocked < s.withdrawn { return Err(MathOverflow); }
      if !(unlocked - s.withdrawn > 0) { return Err(InsufficientUnlockedFunds); }
      r := Ok(unlocked);
    }

    /** The keeper hint, through u128 and back to i64. */
    method NextChargeAt(s: Subscription, withdrawn: U64) returns (r: Result<I64>)
      requires s.period > 0
      ensures r == Handlers.NextChargeAt(s, withdrawn)
    {
      ProductFits(s.period, withdrawn);
      var product := CheckedMulDiv(withdrawn, s.period, s.price);
      if product.None? || product.value > I64_MAX { return Err(MathOverflow); }
      var covered: I64 := product.value;
      if s.streamStart + covered > I64_MAX { return Err(MathOverflow); }
      if s.streamStart + covered + s.period > I64_MAX { return Err(MathOverflow); }
      r := Ok(s.streamStart + covered + s.period);
    }

    method ChargeTail(now: I64, k: SubKey, claimable: U64, attachGrace: bool) returns (r: Result<()>)
      requires k in subs && subs[k].period > 0 && subs[k].withdrawn + claimable <= U64_MAX
      modifies this
      ensures Meets(r, Contents(),
                    Handlers.ChargeTail(old(Contents()), now, k, old(subs[k].withdrawn) + claimable, attachGrace))
    {
      var sub := subs[k];
      sub := sub.(withdrawn := sub.withdrawn + claimable);
      sub := sub.(lastChargeAt := now);
      var next :- NextChargeAt(sub, sub.withdrawn);
      sub := sub.(nextChargeAt := next);
      if sub.withdrawn == sub.deposited {
        if now + GRACE_DURATION > I64_MAX { return Err(MathOverflow); }
        if !attachGrace { return Err(MissingGraceSatellite); }
        graced := graced[k := GracedSubscription(k, now, now + GRACE_DURATION)];
        sub := sub.(state := GracePeriod);
      } else {
        if attachGrace { return Err(UnexpectedGraceSatellite); }
      }
      subs := subs[k := sub];
      r := Ok(());
    }

    method Charge(now: I64, k: SubKey, plan: PlanKey, merchantAta: Key, attachGrace: bool) returns (r: Result<()>)
      modifies this
      ensures Meets(r, Contents(), Handlers.ChargeStep(old(Contents()), now, k, plan, merchantAta, attachGrace))
    {
      var unlocked :- ChargeGuards(now, k, plan, merchantAta, attachGrace);
      var claimable := unlocked - subs[k].withdrawn;
      var _ :- TransferOut(Purpose.Charge, k, merchantAta, claimable);
      r := ChargeTail(now, k, claimable, attachGrace);
    }

    method TopUp(now: I64, subscriber: Key, k: SubKey, subscriberAta: Key, amount: U64, attachGrace: bool)
      returns (r: Result<()>)
      modifies this
      ensures Meets(r, Contents(), Handlers.TopUpStep(old(Contents()), now, subscriber, k, subscriberAta, amount, attachGrace))
    {
      if k !in subs || k !in vaults || subscriberAta !in accounts || (attachGrace && k !in graced) {
        return Err(AccountNotInitialized);
      }
      if subscriber != subs[k].subscriber { return Err(ConstraintHasOne); }
      if accounts[subscriberAta].owner != subscriber { return Err(ConstraintTokenOwner); }
      if !(amount > 0) { return Err(IllegalAmountForTopUp); }
      var state := subs[k].state;
      if !(state.Active? || state.Paused? || state.GracePeriod?) { return Err(IllegalStateForTopUp); }
      if state.GracePeriod? && !attachGrace { return Err(MissingGraceSatellite); }
      var _ :- TransferIn(Purpose.TopUp, k, subscriberAta, amount);
      var sub := subs[k];
      if sub.deposited + amount > U64_MAX { return Err(MathOverflow); }
      sub := sub.(deposited := sub.deposited + amount);
      if state.GracePeriod? {
        var enteredGraceAt := graced[k].enteredGraceAt;
        if !(now >= enteredGraceAt) { return Err(ClockBackwards); }
        var graceDuration := now - enteredGraceAt;
        if graceDuration > I64_MAX || sub.streamStart + graceDuration > I64_MAX { return Err(MathOverflow); }
        sub := sub.(streamStart := sub.streamStart + graceDuration);
        sub := sub.(state := Active);
      }
      subs := subs[k := sub];
      if attachGrace { graced := graced - {k}; }
      r := Ok(());
    }

    method Pause(now: I64, merchant: Key, k: SubKey) returns (r: Result<()>)
      modifies this
      ensures Meets(r, Contents(), Handlers.PauseStep(old(Contents()), now, merchant, k))
    {
      if k !in subs { return Err(AccountNotInitialized); }
      if k in paused { return Err(AccountInUse); }
      var s := subs[k];
      if merchant != s.merchant { return Err(UnauthorizedPause); }
      if !s.state.Active? { return Err(IllegalStateForPause); }
      if !(now >= s.streamStart) { return Err(ClockBackwards); }
      if !(s.period > 0) { return Err(InvalidPeriod); }
      if now - s.streamStart > I64_MAX { return Err(Panicked); }
      var unlockedAtPause := StreamUnlocked(s, now - s.streamStart);
      paused := paused[k := PausedSubscription(k, now)];
      subs := subs[k := s.(state := Paused)];
      r := Ok(());
    }

    method Resume(now: I64, merchant: Key, k: SubKey) returns (r: Result<()>)
      modifies this
      ensures Meets(r, Contents(), Handlers.ResumeStep(old(Contents()), now, merchant, k))
    {
      if k !in subs || k !in paused { return Err(AccountNotInitialized); }
      if merchant != subs[k].merchant { return Err(UnauthorizedResume); }
      if paused[k].subscription != k { return Err(IllegalStateForResume); }
      if !subs[k].state.Paused? { return Err(IllegalStateForResume); }
      if !(now >= paused[k].pausedAt) { return Err(ClockBackwards); }
      var pauseDuration := now - paused[k].pausedAt;
      var sub := subs[k];
      if pauseDuration > I64_MAX || sub.streamStart + pauseDuration > I64_MAX { return Err(MathOverflow); }
      sub := sub.(streamStart := sub.streamStart + pauseDuration);
      sub := sub.(state := Active);
      subs := subs[k := sub];
      paused := paused - {k};
      r := Ok(());
    }

    method EffectiveNow(now: I64, k: SubKey, attachGrace: bool, attachPaused: bool) returns (r: Result<I64>)
      requires k in subs && (attachGrace ==> k in graced) && (attachPaused ==> k in paused)
      ensures r == Handlers.EffectiveNow(Contents(), now, k, attachGrace, attachPaused)
    {
      match subs[k].state {
        case Active => r := Ok(now);
        case GracePeriod =>
          if !attachGrace { return Err(MissingGraceSatellite); }
          r := Ok(Min(now, graced[k].graceUntil));
        case Paused =>
          if !attachPaused { return Err(IllegalStateForCancel); }
          r := Ok(paused[k].pausedAt);
        case _ => r := Err(IllegalStateForCancel);
      }
    }

    method CancelAccounts(signer: Key, k: SubKey, rentTo: Key, merchantAta: Key, subscriberAta: Key,
                          attachGrace: bool, attachPaused: bool)
      returns (r: Result<()>)
      ensures r == Handlers.CancelAccounts(Contents(), signer, k, rentTo, merchantAta, subscriberAta,
                                    attachGrace, attachPaused)
    {
      if k !in subs || k !in vaults || merchantAta !in accounts || subscriberAta !in accounts
         || (attachGrace && k !in graced) || (attachPaused && k !in paused) {
        return Err(AccountNotInitialized);
      }
      var s := subs[k];
      if rentTo != s.subscriber { return Err(SubscriberAccountMismatch); }
      if merchantAta != s.merchantAta { return Err(ConstraintAddress); }
      if accounts[subscriberAta].owner != s.subscriber { return Err(ConstraintTokenOwner); }
      if attachPaused && paused[k].subscription != k { return Err(IllegalStateForCancel); }
      if !(signer == s.subscriber || signer == s.merchant) { return Err(NoCancelAuthority); }
      r := Ok(());
    }

    method CancelGuards(now: I64, signer: Key, k: SubKey, rentTo: Key, merchantAta: Key, subscriberAta: Key,
                        attachGrace: bool, attachPaused: bool)
      returns (r: Result<U64>)
      ensures r == Handlers.CancelGuards(Contents(), now, signer, k, rentTo, merchantAta, subscriberAta,
                                    attachGrace, attachPaused)
    {
      var _ :- CancelAccounts(signer, k, rentTo, merchantAta, subscriberAta, attachGrace, attachPaused);
      var s := subs[k];
      if !(s.state.Active? || s.state.Paused? || s.state.GracePeriod?) { return Err(IllegalStateForCancel); }
      if !(now >= s.streamStart) { return Err(ClockBackwards); }
      if !(s.period > 0) { return Err(InvalidPeriod); }
      var effectiveNow :- EffectiveNow(now, k, attachGrace, attachPaused);
      if !(effectiveNow >= s.streamStart) { return Err(ClockBackwards); }
      if effectiveNow - s.streamStart > I64_MAX { return Err(Panicked); }
      var unlocked := StreamUnlocked(s, effectiveNow - s.streamStart);
      if unlocked < s.withdrawn { return Err(MathOverflow); }
      r := Ok(unlocked);
    }

    method TransferOutAny(purpose: Purpose, k: SubKey, to: Key, amount: U64) returns (r: Result<()>)
      requires k in vaults && to in accounts
      modifies this`accounts, this`vaults, this`journal
      ensures Meets(r, Tokens(), Handlers.WithdrawAny(old(Tokens()), purpose, k, to, amount))
    {
      if amount > 0 {
        r := TransferOut(purpose, k, to, amount);
      } else {
        r := Ok(());
      }
    }

    method Tombstone(now: I64, k: SubKey, finalClaimable: U64, attachGrace: bool, attachPaused: bool)
      returns (r: Result<()>)
      requires k in subs && k in vaults && subs[k].withdrawn + finalClaimable <= U64_MAX
      modifies this
      ensures Meets(r, Contents(),
                    Handlers.Tombstone(old(Contents()), now, k, old(subs[k].withdrawn) + finalClaimable,
                                       attachGrace, attachPaused))
    {
      var sub := subs[k];
      sub := sub.(state := Cancelled);
      sub := sub.(lastChargeAt := now);
      sub := sub.(withdrawn := sub.withdrawn + finalClaimable);
      if vaults[k] != 0 { return Err(NonEmptyAccount); }
      vaults := vaults - {k};
      subs := subs[k := sub];
      if attachGrace { graced := graced - {k}; }
      if attachPaused { paused := paused - {k}; }
      r := Ok(());
    }

    method Cancel(now: I64, signer: Key, k: SubKey, rentTo: Key, merchantAta: Key, subscriberAta: Key,
                  attachGrace: bool, attachPaused: bool)
      returns (r: Result<()>)
      modifies this
      ensures Meets(r, Contents(),
                    Handlers.CancelStep(old(Contents()), now, signer, k, rentTo, merchantAta, subscriberAta,
                                        attachGrace, attachPaused))
    {
      hide Handlers.Tombstone, Handlers.EffectiveNow, Handlers.Elapsed, Accrued;
      var unlocked :- CancelGuards(now, signer, k, rentTo, merchantAta, subscriberAta, attachGrace, attachPaused);
      var finalClaimable := unlocked - subs[k].withdrawn;
      var refund := subs[k].deposited - unlocked;
      var _ :- TransferOutAny(Claim, k, merchantAta, finalClaimable);
      var _ :- TransferOutAny(Refund, k, subscriberAta, refund);
      r := Tombstone(now, k, finalClaimable, attachGrace, attachPaused);
    }

    method Cleanup(subscriber: Key, k: SubKey) returns (r: Result<()>)
      modifies this
      ensures Meets(r, Contents(), Handlers.CleanupStep(old(Contents()), subscriber, k))
    {
      if k !in subs { return Err(AccountNotInitialized); }
      if subscriber != subs[k].subscriber { return Err(UnauthorizedCleanup); }
      if !(subs[k].state.Cancelled? || subs[k].state.Exhausted?) { return Err(IllegalStateForCleanup); }
      subs := subs - {k};
      r := Ok(());
    }

    method OpenSession(now: I64, subscriber: Key, k: SubKey, sessionId: U64, facilitator: Key, cap: U64)
      returns (r: Result<()>)
      modifies this
      ensures Meets(r, Contents(), Handlers.OpenSessionStep(old(Contents()), now, subscriber, k, sessionId, facilitator, cap))
    {
      var sk := SessionKey(k, sessionId);
      if k !in subs { return Err(AccountNotInitialized); }
      if sk in sessions { return Err(AccountInUse); }
      var parent := subs[k];
      if subscriber != parent.subscriber { return Err(UnauthorizedOpenSession); }
      if !parent.state.Active? { return Err(ParentNotActive); }
      if parent.deposited < parent.withdrawn { return Err(ArithmeticOverflow); }
      var remaining := parent.deposited - parent.withdrawn;
      if !(cap == 0 || cap <= remaining) { return Err(ReservationCapExceedsEscrow); }
      sessions := sessions[sk :=
        PaySession(k, parent.merchant, parent.merchantAta, facilitator, sessionId, now, 0, 0, cap, Open)];
      r := Ok(());
    }

    method CloseSession(subscriber: Key, k: SubKey, sessionId: U64) returns (r: Result<()>)
      modifies this
      ensures Meets(r, Contents(), Handlers.CloseSessionStep(old(Contents()), subscriber, k, sessionId))
    {
      var sk := SessionKey(k, sessionId);
      if k !in subs || sk !in sessions { return Err(AccountNotInitialized); }
      if subscriber != subs[k].subscriber { return Err(UnauthorizedClose); }
      if sessions[sk].subscription != k { return Err(PaySessionParentMismatch); }
      if !sessions[sk].state.Open? { return Err(IllegalStateForClose); }
      sessions := sessions - {sk};
      r := Ok(());
    }

    method SettleGuards(now: I64, facilitator: Key, k: SubKey, sessionId: U64, merchantAta: Key, amount: U64)
      returns (r: Result<()>)
      ensures r == Handlers.SettleGuards(Contents(), now, facilitator, k, sessionId, merchantAta, amount)
    {
      var sk := SessionKey(k, sessionId);
      if k !in subs || sk !in sessions || k !in vaults || merchantAta !in accounts { return Err(AccountNotInitialized); }
      var parent, session := subs[k], sessions[sk];
      if session.subscription != k { return Err(PaySessionParentMismatch); }
      if session.facilitator != facilitator { return Err(UnauthorizedFacilitator); }
      if merchantAta != session.merchantAta { return Err(PaySessionMerchantAtaMismatch); }
      if !(amount > 0) { return Err(IllegalAmountForSettle); }
      if !parent.state.Active? { return Err(ParentNotActive); }
      if !session.state.Open? { return Err(IllegalStateForSettle); }
      if session.reservationCap > 0 {
        if session.usage + amount > U64_MAX { return Err(ArithmeticOverflow); }
        if session.usage + amount > session.reservationCap { return Err(ReservationCapExceeded); }
      }
      if !(now >= parent.streamStart) { return Err(ClockBackwards); }
      if !(parent.period > 0) { return Err(InvalidPeriod); }
      if now - parent.streamStart > I64_MAX { return Err(Panicked); }
      var unlocked := StreamUnlocked(parent, now - parent.streamStart);
      if unlocked < parent.withdrawn { return Err(ArithmeticOverflow); }
      if amount > unlocked - parent.withdrawn { return Err(InsufficientUnlockedFunds); }
      r := Ok(());
    }

    method SettleTail(now: I64, k: SubKey, sessionId: U64, amount: U64) returns (r: Result<()>)
      requires k in subs && SessionKey(k, sessionId) in sessions && subs[k].withdrawn + amount <= U64_MAX
      modifies this
      ensures Meets(r, Contents(), Handlers.SettleTail(old(Contents()), now, k, sessionId, amount))
    {
      var sk := SessionKey(k, sessionId);
      subs := subs[k := subs[k].(withdrawn := subs[k].withdrawn + amount)];
      var session := sessions[sk];
      if session.usage + amount > U64_MAX { return Err(ArithmeticOverflow); }
      session := session.(usage := session.usage + amount);
      session := session.(lastSettleAt := now);
      session := session.(state := Open);
      sessions := sessions[sk := session];
      r := Ok(());
    }

    method SettleUsage(now: I64, facilitator: Key, k: SubKey, sessionId: U64, merchantAta: Key, amount: U64)
      returns (r: Result<()>)
      modifies this
      ensures Meets(r, Contents(), Handlers.SettleUsageStep(old(Contents()), now, facilitator, k, sessionId, merchantAta, amount))
    {
      var sk := SessionKey(k, sessionId);
      var _ :- SettleGuards(now, facilitator, k, sessionId, merchantAta, amount);
      // The transient lock; the transfer runs with the session Settling.
      sessions := sessions[sk := sessions[sk].(state := Settling)];
      var _ :- TransferOut(Settle(sessionId), k, merchantAta, amount);
      r := SettleTail(now, k, sessionId, amount);
    }

    /** Runs one instruction; on an error the accounts may hold partial writes. */
    method Execute(now: I64, ix: Instruction) returns (r: Result<()>)
      modifies this
      ensures Meets(r, Contents(), Handlers.Step(old(Contents()), now, ix))
    {
      hide Handlers.CreatePlanStep, Handlers.SubscribeStep, Handlers.ChargeStep, Handlers.TopUpStep, Handlers.PauseStep,
           Handlers.ResumeStep, Handlers.CancelStep, Handlers.CleanupStep, Handlers.OpenSessionStep, Handlers.CloseSessionStep,
           Handlers.SettleUsageStep, Handlers.TokenTransferStep, Handlers.DonateStep, Handlers.OpenTokenAccountStep,
           Handlers.CloseTokenAccountStep, Handlers.AssignTokenAccountStep;
      match ix
      case CreatePlan(m, id, price, period, ata) => r := CreatePlan(m, id, price, period, ata);
      case Subscribe(s, plan, ata, n) => r := Subscribe(now, s, plan, ata, n);
      case ChargeIx(k, plan, ata, g) => r := Charge(now, k, plan, ata, g);
      case TopUpIx(s, k, ata, amount, g) => r := TopUp(now, s, k, ata, amount, g);
      case Pause(m, k) => r := Pause(now, m, k);
      case Resume(m, k) => r := Resume(now, m, k);
      case Cancel(signer, k, rentTo, mAta, sAta, g, p) => r := Cancel(now, signer, k, rentTo, mAta, sAta, g, p);
      case Cleanup(s, k) => r := Cleanup(s, k);
      case OpenSession(s, k, id, f, cap) => r := OpenSession(now, s, k, id, f, cap);
      case CloseSession(s, k, id) => r := CloseSession(s, k, id);
      case SettleUsage(f, k, id, ata, amount) => r := SettleUsage(now, f, k, id, ata, amount);
      case TokenTransfer(owner, from, to, amount) => r := TokenTransfer(owner, from, to, amount);
      case Donate(owner, from, k, amount) => r := Donate(owner, from, k, amount);
      case OpenTokenAccount(account, owner) => r := OpenTokenAccount(account, owner);
      case CloseTokenAccount(owner, account) => r := CloseTokenAccount(owner, account);
      case AssignTokenAccount(owner, account, newOwner) => r := AssignTokenAccount(owner, account, newOwner);
    }

    /** A transaction commits as a whole or leaves every account as it was. */
    method Submit(now: I64, ixs: seq<Instruction>) returns (r: Result<()>)
      modifies this
      ensures Meets(r, Contents(), Handlers.Transact(old(Contents()), now, ixs))
      ensures r.Err? ==> Contents() == old(Contents())
    {
      hide Handlers.Step;
      var before := Contents();
      for i := 0 to |ixs|
        invariant Handlers.Transact(before, now, ixs) == Handlers.Transact(Contents(), now, ixs[i..])
      {
        assert ixs[i..][0] == ixs[i] && ixs[i..][1..] == ixs[i + 1..];
        r := Execute(now, ixs[i]);
        if r.Err? {
          plans, subs, graced, paused, sessions := before.plans, before.subs, before.graced, before.paused, before.sessions;
          accounts, vaults, journal := before.bank.accounts, before.bank.vaults, before.bank.journal;
          return;
        }
      }
      assert ixs[|ixs|..] == [];
      r := Ok(());
    }
  }
}
