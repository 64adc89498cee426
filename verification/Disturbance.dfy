/** What tokens that an outsider sends to a vault do to the subscription: exactly which lifetimes can still end. */
module Disturbance {
  import opened Integers
  import opened Outcomes
  import opened State
  import opened StreamMath
  import opened Handlers
  import opened Books
  import opened Invariants
  import opened Runs
  import opened Continuations
  import opened Liveness
  import opened Grace
  import opened Keeper
  import opened Samples

  /** Live, with tokens in the vault that belong to nobody's escrow. */
  ghost predicate Locked(w: World, k: SubKey) {
    Lives(w, k) && BookOf(w.bank.journal, k).donated > 0
  }

  // ----- a disturbed vault stays open -----

  lemma CancelRefused(w: World, now: I64, signer: Key, k: SubKey, rentTo: Key, mAta: Key, sAta: Key, g: bool, p: bool)
    requires KeyOk(w, k) && Locked(w, k)
    ensures CancelStep(w, now, signer, k, rentTo, mAta, sAta, g, p).Err?
  {
    hide WithdrawAny, BookOf, Accrued;
    if CancelStep(w, now, signer, k, rentTo, mAta, sAta, g, p).Ok? {
      var unlocked := CancelGuards(w, now, signer, k, rentTo, mAta, sAta, g, p).value;
      var claim, refund := unlocked - w.subs[k].withdrawn, w.subs[k].deposited - unlocked;
      WithdrawMoves(w.bank, Claim, k, mAta, claim, k);
      PayoutHere(w.bank, k, mAta, sAta, claim, refund);
    }
  }

  lemma PaymentKeepsLock(w: World, now: I64, ix: Instruction, k: SubKey)
    requires Locked(w, k) && Step(w, now, ix).Ok? && Target(ix) == Some(k) && (ix.ChargeIx? || ix.SettleUsage?)
    ensures Locked(Step(w, now, ix).value, k)
  {
    hide Withdraw, BookOf, Accrued, NextChargeAt;
    match ix
    case ChargeIx(_, plan, ata, g) =>
      WithdrawHere(w.bank, Purpose.Charge, k, ata, ChargeGuards(w, now, k, plan, ata, g).value - w.subs[k].withdrawn);
    case SettleUsage(_, _, id, ata, amount) => WithdrawHere(w.bank, Settle(id), k, ata, amount);
  }

  lemma FundingKeepsLock(w: World, now: I64, ix: Instruction, k: SubKey)
    requires Locked(w, k) && Step(w, now, ix).Ok? && Target(ix) == Some(k) && (ix.TopUpIx? || ix.Donate?)
    ensures Locked(Step(w, now, ix).value, k)
  {
    hide Deposit, BookOf;
    match ix
    case TopUpIx(_, _, ata, amount, _) => DepositHere(w.bank, Purpose.TopUp, k, ata, amount);
    case Donate(_, from, _, amount) => DepositHere(w.bank, Donation, k, from, amount);
  }

  lemma OthersKeepLock(w: World, now: I64, ix: Instruction, k: SubKey)
    requires Locked(w, k) && Step(w, now, ix).Ok? && Target(ix) == Some(k)
    requires !(ix.ChargeIx? || ix.SettleUsage? || ix.TopUpIx? || ix.Donate? || ix.Cancel?)
    ensures Locked(Step(w, now, ix).value, k)
  {
    hide ChargeStep, TopUpStep, CancelStep, SettleUsageStep, DonateStep, Deposit, Elapsed, BookOf;
  }

  lemma StaysLocked(w: World, now: I64, ix: Instruction, k: SubKey)
    requires KeyOk(w, k) && Locked(w, k) && Step(w, now, ix).Ok?
    ensures Locked(Step(w, now, ix).value, k)
  {
    StepContained(w, now, ix, k);
    hide BookOf, ChargeStep, TopUpStep, PauseStep, ResumeStep, CancelStep, CleanupStep, SettleUsageStep, SubscribeStep,
         DonateStep, OpenSessionStep, CloseSessionStep, KeyOk;
    if Target(ix) == Some(k) {
      match ix
      case Cancel(signer, _, rentTo, mAta, sAta, g, p) => CancelRefused(w, now, signer, k, rentTo, mAta, sAta, g, p);
      case ChargeIx(_, _, _, _) => PaymentKeepsLock(w, now, ix, k);
      case SettleUsage(_, _, _, _, _) => PaymentKeepsLock(w, now, ix, k);
      case TopUpIx(_, _, _, _, _) => FundingKeepsLock(w, now, ix, k);
      case Donate(_, _, _, _) => FundingKeepsLock(w, now, ix, k);
      case _ => OthersKeepLock(w, now, ix, k);
    }
  }

  /**
   * Once an outsider has sent a live vault anything, no continuation ends the lifetime, at any clock: the
   * record stays live, so it is never cancelled, cleaned up or subscribed again, and the vault stays disturbed.
   */
  lemma {:induction false} LockedForever(base: Run, r: Run, k: SubKey)
    requires Funded(base) && Locked(After(base), k) && Extends(base, r)
    ensures Funded(r) && Locked(After(r), k)
    decreases r
  {
    hide Step, Locked;
    if r != base {
      LockedForever(base, r.earlier, k);
      InvAt(r.earlier, k);
      if Step(After(r.earlier), r.now, r.ix).Ok? { StaysLocked(After(r.earlier), r.now, r.ix, k); }
    }
  }

  // ----- an undisturbed lifetime can be ended -----

  /** Some continuation of `r`, with a clock that does not run backwards, ends the lifetime of `k`. */
  ghost predicate CanEnd(r: Run, k: SubKey) {
    exists r' :: Extends(r, r') && Forward(r') && !Lives(After(r'), k)
  }

  lemma {:induction false} FreshKey(accounts: map<Key, TokenAccount>) returns (a: Key)
    ensures a !in accounts && forall b :: b in accounts ==> b < a
    decreases |accounts|
  {
    if accounts == map[] {
      a := 0;
    } else {
      var b :| b in accounts;
      RemoveShrinks(accounts, b);
      var a' := FreshKey(accounts - {b});
      a := if a' <= b then b + 1 else a';
      forall c | c in accounts
        ensures c < a
      {
        assert c == b || c in accounts - {b};
      }
    }
  }

  /** `r` after somebody has opened token account `a` for `owner`, unless it existed. */
  function Opened(r: Run, a: Key, owner: Key): Run {
    if a in After(r).bank.accounts then r else Then(r, Clock(r), OpenTokenAccount(a, owner))
  }

  lemma OpenedRun(r: Run, a: Key, owner: Key)
    requires Funded(r) && Forward(r)
    ensures var r' := Opened(r, a, owner);
      && Funded(r') && Forward(r') && Clock(r') == Clock(r) && (r' == r || (r'.Then? && r'.earlier == r))
      && a in After(r').bank.accounts
      && (a !in After(r).bank.accounts ==> After(r').bank.accounts[a].owner == owner)
      && (forall b :: b in After(r).bank.accounts ==>
            b in After(r').bank.accounts && After(r').bank.accounts[b] == After(r).bank.accounts[b])
      && After(r').subs == After(r).subs && After(r').bank.vaults == After(r).bank.vaults
  {
  }

  lemma CancelEnds(w: World, now: I64, signer: Key, k: SubKey, rentTo: Key, mAta: Key, sAta: Key, g: bool, p: bool)
    requires CancelStep(w, now, signer, k, rentTo, mAta, sAta, g, p).Ok?
    ensures !Lives(CancelStep(w, now, signer, k, rentTo, mAta, sAta, g, p).value, k)
  {
    hide WithdrawAny, Accrued, EffectiveNow, Elapsed;
  }

  lemma {:induction false} UndisturbedEnds(r: Run, k: SubKey)
    requires Funded(r) && Forward(r) && Lives(After(r), k) && Undisturbed(After(r), k)
    ensures CanEnd(r, k)
  {
    hide Step, After, Forward, Funded, Extends;
    ExtendsItself(r);
    var s := After(r).subs[k];
    var r1 := Opened(r, s.merchantAta, s.merchant);
    OpenedRun(r, s.merchantAta, s.merchant);
    var a := FreshKey(After(r1).bank.accounts);
    var r2 := Opened(r1, a, s.subscriber);
    OpenedRun(r1, a, s.subscriber);
    var g, p := s.state.GracePeriod?, s.state.Paused?;
    var ix := Cancel(s.subscriber, k, s.subscriber, s.merchantAta, a, g, p);
    NoStuckFunds(r2, Clock(r2), k, s.subscriber, s.subscriber, s.merchantAta, a, g, p);
    Ended(r2, ix, k);
    ExtendsOn(r, r, r1);
    ExtendsOn(r, r1, r2);
    ExtendsOn(r, r2, Then(r2, Clock(r2), ix));
  }

  lemma Ended(r: Run, ix: Instruction, k: SubKey)
    requires ix.Cancel? && ix.sub == k && Forward(r) && Step(After(r), Clock(r), ix).Ok?
    ensures Forward(Then(r, Clock(r), ix)) && !Lives(After(Then(r, Clock(r), ix)), k)
  {
    hide CancelStep;
    CancelEnds(After(r), Clock(r), ix.signer, k, ix.rentTo, ix.merchantAta, ix.subscriberAta, ix.attachGrace, ix.attachPaused);
  }

  /**
   * Exactly which lifetimes can end: in every reachable state a live subscription can still be brought to an end,
   * now or later, if and only if nobody outside has sent its vault anything since it began.
   */
  lemma {:induction false} EndsIffUndisturbed(r: Run, k: SubKey)
    requires Funded(r) && Forward(r) && Lives(After(r), k)
    ensures CanEnd(r, k) <==> BookOf(After(r).bank.journal, k).donated == 0
  {
    hide Step, BookOf, After, Forward, Funded, Extends, Undisturbed;
    if BookOf(After(r).bank.journal, k).donated == 0 {
      DisturbedByDonation(r, k);
      UndisturbedEnds(r, k);
    } else if CanEnd(r, k) {
      var r' :| Extends(r, r') && Forward(r') && !Lives(After(r'), k);
      LockedForever(r, r', k);
    }
  }

  // ----- a disturbed vault -----

  /** One base unit, sent to the vault by the subscriber's own wallet five seconds into the stream. */
  function OneUnitSent(): Run {
    Then(Grace.Subscribed(), 5, Donate(SUBSCRIBER, SUBSCRIBER_ATA, SAMPLE, 1))
  }

  predicate SurplusOfOne(w: World) {
    && SAMPLE in w.subs && SAMPLE in w.bank.vaults && w.bank.vaults[SAMPLE] == 101
    && MERCHANT_ATA in w.bank.accounts && w.bank.accounts[MERCHANT_ATA] == TokenAccount(MERCHANT, 0)
    && SUBSCRIBER_ATA in w.bank.accounts && w.bank.accounts[SUBSCRIBER_ATA] == TokenAccount(SUBSCRIBER, 899)
    && var s := w.subs[SAMPLE];
       s.state.Active? && s.deposited == 100 && s.withdrawn == 0 && s.streamStart == 0
       && s.price == 100 && s.period == 10 && s.merchantAta == MERCHANT_ATA && s.subscriber == SUBSCRIBER
  }

  lemma DonateSample(w: World)
    requires Balances(w.bank, 0, 900) && HasSub(w, Active, 100, 0, 0)
    ensures var r := Step(w, 5, Donate(SUBSCRIBER, SUBSCRIBER_ATA, SAMPLE, 1)); r.Ok? && SurplusOfOne(r.value)
  {
  }

  lemma CancelSample(w: World)
    requires SurplusOfOne(w)
    ensures WellFormedCancel(w, SAMPLE, SUBSCRIBER, SUBSCRIBER, MERCHANT_ATA, SUBSCRIBER_ATA, false, false)
    ensures Step(w, 10, Cancel(SUBSCRIBER, SAMPLE, SUBSCRIBER, MERCHANT_ATA, SUBSCRIBER_ATA, false, false))
         == Err(NonEmptyAccount)
  {
  }

  /** A reachable live subscription whose well-formed cancellation is refused. */
  lemma DisturbedCancelRefused()
    ensures Forward(OneUnitSent())
    ensures WellFormedCancel(After(OneUnitSent()), SAMPLE, SUBSCRIBER, SUBSCRIBER, MERCHANT_ATA, SUBSCRIBER_ATA, false, false)
    ensures Step(After(OneUnitSent()), 10, Cancel(SUBSCRIBER, SAMPLE, SUBSCRIBER, MERCHANT_ATA, SUBSCRIBER_ATA, false, false))
         == Err(NonEmptyAccount)
  {
    hide Step, HasPlan, Balances, WellFormedCancel;
    PlanSample();
    SubscribeSample(After(Planned()));
    DonateSample(After(Grace.Subscribed()));
    CancelSample(After(OneUnitSent()));
  }
}
