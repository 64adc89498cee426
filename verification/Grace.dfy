/** What a top-up out of the grace period resumes. */
module Grace {
  import opened Integers
  import opened State
  import opened StreamMath
  import opened Handlers
  import opened Books
  import opened Invariants
  import opened Runs
  import opened Settlement
  import opened Keeper
  import opened Samples

  lemma RecoveryAt(w: World, now: I64, k: SubKey, subscriber: Key, ata: Key, amount: U64, g: bool, later: nat, active: int)
    requires KeyOk(w, k) && Timely(w, k, now, active) && k in w.subs && w.subs[k].state.GracePeriod?
    requires Step(w, now, TopUpIx(subscriber, k, ata, amount, g)).Ok?
    ensures k in Step(w, now, TopUpIx(subscriber, k, ata, amount, g)).value.subs && k in w.graced
    ensures var w' := Step(w, now, TopUpIx(subscriber, k, ata, amount, g)).value;
      var s, s' := w.subs[k], w'.subs[k];
      var served := w.graced[k].enteredGraceAt - s.streamStart;
      && s'.state.Active? && k !in w'.graced && amount > 0
      && s.period > 0 && served == active >= 0 && s'.period == s.period && s'.streamStart <= now
      && Accrued(served, s.price, s.period) >= s.deposited
      && Claimable(s', now + later) == Min(Accrued(served + later, s.price, s.period), s.deposited + amount) - s.deposited
  {
    hide BookOf, Accrued, Deposit;
  }

  /**
   * Exact recovery: `later` seconds after a recovering top-up the merchant can claim exactly what the stream
   * would have unlocked had the grace period taken no time at all. The length of the grace period does not
   * enter. What the stream had accrued above the deposit when grace was entered is kept: the recovered
   * stream starts from zero claimable if and only if grace was entered at exact exhaustion.
   */
  lemma {:induction false} ExactRecovery(r: Run, now: I64, k: SubKey, subscriber: Key, ata: Key, amount: U64,
                                         g: bool, later: nat)
    requires Funded(r) && Forward(r) && Clock(r) <= now
    requires k in After(r).subs && After(r).subs[k].state.GracePeriod?
    requires Step(After(r), now, TopUpIx(subscriber, k, ata, amount, g)).Ok?
    ensures k in Step(After(r), now, TopUpIx(subscriber, k, ata, amount, g)).value.subs && k in After(r).graced
    ensures var w' := Step(After(r), now, TopUpIx(subscriber, k, ata, amount, g)).value;
      var s, s' := After(r).subs[k], w'.subs[k];
      var served := After(r).graced[k].enteredGraceAt - s.streamStart;
      && s'.state.Active? && k !in w'.graced
      && s.period > 0 && served == ActiveSeconds(r, k) >= 0 && s'.period > 0 && s'.streamStart <= now
      && Claimable(s', now + later) == Min(Accrued(served + later, s.price, s.period), s.deposited + amount) - s.deposited
      && (Claimable(s', now) == 0 <==> Accrued(served, s.price, s.period) == s.deposited)
  {
    hide Step, Inv, KeyOk, Timely, Accrued;
    Reached(r, k, now);
    RecoveryAt(After(r), now, k, subscriber, ata, amount, g, later, ActiveBy(r, k, now));
    RecoveryAt(After(r), now, k, subscriber, ata, amount, g, 0, ActiveBy(r, k, now));
  }

  // ----- how often grace is entered -----

  predicate InGrace(w: World, k: SubKey) {
    k in w.subs && w.subs[k].state.GracePeriod?
  }

  /** How many times the current lifetime of `k` had its grace account created. */
  function Entries(r: Run, k: SubKey): int {
    match r
    case Genesis(_) => 0
    case Then(earlier, _, _) =>
      if k !in After(earlier).subs then 0
      else Entries(earlier, k) + if k !in After(earlier).graced && k in After(r).graced then 1 else 0
  }

  /** How many times a top-up has brought the current lifetime of `k` back from grace. */
  function Recoveries(r: Run, k: SubKey): int {
    match r
    case Genesis(_) => 0
    case Then(earlier, _, _) =>
      if k !in After(earlier).subs then 0
      else Recoveries(earlier, k) + if InGrace(After(earlier), k) && IsActive(After(r), k) then 1 else 0
  }

  /** The current lifetime of `k` was cancelled while in grace. */
  predicate EndedInGrace(r: Run, k: SubKey) {
    match r
    case Genesis(_) => false
    case Then(earlier, _, _) =>
      && k in After(earlier).subs && k in After(r).subs && After(r).subs[k].state.Cancelled?
      && (InGrace(After(earlier), k) || EndedInGrace(earlier, k))
  }

  /** What an instruction does to the grace period of its own subscription. */
  ghost predicate GraceMoved(w: World, w': World, ix: Instruction, k: SubKey) {
    k in w.subs && k in w'.subs ==>
      && (InGrace(w', k) && !InGrace(w, k) ==> ix.ChargeIx?)
      && (InGrace(w, k) && !InGrace(w', k) ==>
            (ix.TopUpIx? && IsActive(w', k)) || (ix.Cancel? && w'.subs[k].state.Cancelled?))
      && (w.subs[k].state.Cancelled? ==> w'.subs[k].state.Cancelled?)
  }

  lemma MoneyMoves(w: World, now: I64, ix: Instruction, k: SubKey)
    requires Step(w, now, ix).Ok? && Target(ix) == Some(k)
    requires ix.ChargeIx? || ix.TopUpIx? || ix.Cancel? || ix.SettleUsage?
    ensures GraceMoved(w, Step(w, now, ix).value, ix, k)
  {
    hide Withdraw, WithdrawAny, Deposit, CancelAccounts, NextChargeAt, Elapsed, Unlocked;
  }

  lemma OtherMoves(w: World, now: I64, ix: Instruction, k: SubKey)
    requires Step(w, now, ix).Ok? && Target(ix) == Some(k)
    requires !(ix.ChargeIx? || ix.TopUpIx? || ix.Cancel? || ix.SettleUsage?)
    ensures GraceMoved(w, Step(w, now, ix).value, ix, k)
  {
    hide ChargeStep, TopUpStep, CancelStep, SettleUsageStep, Deposit, Elapsed;
  }

  /** Grace is entered by a charge only, and left only by a top-up or a cancellation; a tombstone stays one. */
  lemma GraceMoves(w: World, now: I64, ix: Instruction, k: SubKey)
    requires Step(w, now, ix).Ok?
    ensures GraceMoved(w, Step(w, now, ix).value, ix, k)
  {
    hide Step;
    StepContained(w, now, ix, k);
    if Target(ix) == Some(k) {
      if ix.ChargeIx? || ix.TopUpIx? || ix.Cancel? || ix.SettleUsage? {
        MoneyMoves(w, now, ix, k);
      } else {
        OtherMoves(w, now, ix, k);
      }
    }
  }

  /** The two counts differ by one exactly while the lifetime is in grace or after it was cancelled there. */
  ghost predicate Balanced(w: World, k: SubKey, entries: int, recoveries: int, ended: bool) {
    k in w.subs ==>
      && entries == recoveries + (if InGrace(w, k) || ended then 1 else 0)
      && 0 <= recoveries
      && (ended ==> w.subs[k].state.Cancelled?)
  }

  lemma CycleStep(earlier: Run, now: I64, ix: Instruction, k: SubKey)
    requires Funded(earlier) && Balanced(After(earlier), k, Entries(earlier, k), Recoveries(earlier, k), EndedInGrace(earlier, k))
    ensures var r := Then(earlier, now, ix); Balanced(After(r), k, Entries(r, k), Recoveries(r, k), EndedInGrace(r, k))
  {
    hide Step;
    var r := Then(earlier, now, ix);
    SatellitesMatchState(earlier, k);
    SatellitesMatchState(r, k);
    if Step(After(earlier), now, ix).Ok? && k in After(r).subs {
      if k in After(earlier).subs {
        GraceMoves(After(earlier), now, ix, k);
      } else {
        InvAt(earlier, k);
        BornActive(After(earlier), now, ix, k);
      }
    }
  }

  lemma BornActive(w: World, now: I64, ix: Instruction, k: SubKey)
    requires KeyOk(w, k) && Step(w, now, ix).Ok? && k !in w.subs && k in Step(w, now, ix).value.subs
    ensures IsActive(Step(w, now, ix).value, k)
  {
    hide ChargeStep, TopUpStep, PauseStep, ResumeStep, CancelStep, SettleUsageStep, Deposit, SubscribeGuards, BookOf;
    StepContained(w, now, ix, k);
    TargetRecord(w, now, ix, k);
  }

  /**
   * Grace comes in cycles: over every history and any clock, a lifetime has entered grace as often as a top-up has
   * brought it back, and once more exactly while it is in grace or when it was cancelled there.
   */
  lemma {:induction false} GraceCycles(r: Run, k: SubKey)
    requires Funded(r)
    ensures Balanced(After(r), k, Entries(r, k), Recoveries(r, k), EndedInGrace(r, k))
  {
    hide Balanced;
    match r
    case Genesis(_) => GenesisBalanced(r, k);
    case Then(earlier, now, ix) =>
      GraceCycles(earlier, k);
      CycleStep(earlier, now, ix, k);
  }

  lemma GenesisBalanced(r: Run, k: SubKey)
    requires r.Genesis?
    ensures Balanced(After(r), k, Entries(r, k), Recoveries(r, k), EndedInGrace(r, k))
  {
  }

  /**
   * The grace account is not created at most once per lifetime. A charge that enters grace creates it for the
   * first time in the lifetime if and only if no top-up of that lifetime has recovered from grace before.
   */
  lemma {:induction false} CreatedOnceIff(r: Run, now: I64, k: SubKey, plan: PlanKey, ata: Key, g: bool)
    requires Funded(r) && Step(After(r), now, ChargeIx(k, plan, ata, g)).Ok?
    requires InGrace(Step(After(r), now, ChargeIx(k, plan, ata, g)).value, k)
    ensures Entries(Then(r, now, ChargeIx(k, plan, ata, g)), k) == Recoveries(r, k) + 1
    ensures Entries(Then(r, now, ChargeIx(k, plan, ata, g)), k) <= 1 <==> Recoveries(r, k) == 0
  {
    hide Step;
    var r' := Then(r, now, ChargeIx(k, plan, ata, g));
    GraceCycles(r, k);
    GraceCycles(r', k);
    ChargeNeedsActive(After(r), now, k, plan, ata, g);
    SatellitesMatchState(r, k);
    SatellitesMatchState(r', k);
  }

  lemma ChargeNeedsActive(w: World, now: I64, k: SubKey, plan: PlanKey, ata: Key, g: bool)
    requires Step(w, now, ChargeIx(k, plan, ata, g)).Ok?
    ensures IsActive(w, k)
  {
    hide Withdraw, NextChargeAt, Elapsed, Unlocked;
  }

  // ----- a late grace entry -----

  const SAMPLE_PLAN: PlanKey := PlanKey(MERCHANT, 7)
  const SAMPLE: SubKey := SubKey(SUBSCRIBER, SAMPLE_PLAN)

  function Begin(): Run {
    Genesis(map[MERCHANT_ATA := TokenAccount(MERCHANT, 0), SUBSCRIBER_ATA := TokenAccount(SUBSCRIBER, 1000)])
  }

  function Planned(): Run {
    Then(Begin(), 0, CreatePlan(MERCHANT, 7, 100, 10, MERCHANT_ATA))
  }

  function Subscribed(): Run {
    Then(Planned(), 0, Subscribe(SUBSCRIBER, SAMPLE_PLAN, SUBSCRIBER_ATA, 1))
  }

  function ChargedLate(): Run {
    Then(Subscribed(), 15, ChargeIx(SAMPLE, SAMPLE_PLAN, MERCHANT_ATA, true))
  }

  function ToppedUp(): Run {
    Then(ChargedLate(), 1000, TopUpIx(SUBSCRIBER, SAMPLE, SUBSCRIBER_ATA, 100, true))
  }

  function ExhaustedAgain(): Run {
    Then(ToppedUp(), 1005, ChargeIx(SAMPLE, SAMPLE_PLAN, MERCHANT_ATA, true))
  }

  ghost predicate Balances(b: Bank, merchant: U64, subscriber: U64) {
    && MERCHANT_ATA in b.accounts && b.accounts[MERCHANT_ATA] == TokenAccount(MERCHANT, merchant)
    && SUBSCRIBER_ATA in b.accounts && b.accounts[SUBSCRIBER_ATA] == TokenAccount(SUBSCRIBER, subscriber)
  }

  ghost predicate HasPlan(w: World) {
    SAMPLE_PLAN in w.plans && w.plans[SAMPLE_PLAN] == Plan(MERCHANT, 7, 100, 10, USDC_MINT, MERCHANT_ATA)
  }

  ghost predicate HasSub(w: World, state: SubscriptionState, deposited: int, withdrawn: int, start: int) {
    && SAMPLE in w.subs && SAMPLE in w.bank.vaults && w.bank.vaults[SAMPLE] == deposited - withdrawn
    && var s := w.subs[SAMPLE];
       s.state == state && s.deposited == deposited && s.withdrawn == withdrawn && s.streamStart == start
       && s.plan == SAMPLE_PLAN && s.price == 100 && s.period == 10 && s.merchantAta == MERCHANT_ATA && s.subscriber == SUBSCRIBER
  }

  lemma SubscribeSample(w: World)
    requires HasPlan(w) && Balances(w.bank, 0, 1000) && SAMPLE !in w.subs && SAMPLE !in w.bank.vaults && w.graced == map[]
    ensures var r := Step(w, 0, Subscribe(SUBSCRIBER, SAMPLE_PLAN, SUBSCRIBER_ATA, 1));
      r.Ok? && HasPlan(r.value) && Balances(r.value.bank, 0, 900) && HasSub(r.value, Active, 100, 0, 0) && r.value.graced == map[]
  {
  }

  lemma ChargeSample(w: World)
    requires HasPlan(w) && Balances(w.bank, 0, 900) && HasSub(w, Active, 100, 0, 0) && w.graced == map[]
    ensures var r := Step(w, 15, ChargeIx(SAMPLE, SAMPLE_PLAN, MERCHANT_ATA, true));
      && r.Ok? && HasPlan(r.value) && Balances(r.value.bank, 100, 900) && HasSub(r.value, GracePeriod, 100, 100, 0)
      && SAMPLE in r.value.graced && r.value.graced[SAMPLE] == GracedSubscription(SAMPLE, 15, 15 + GRACE_DURATION)
  {
  }

  lemma TopUpSample(w: World)
    requires HasPlan(w) && Balances(w.bank, 100, 900) && HasSub(w, GracePeriod, 100, 100, 0)
    requires SAMPLE in w.graced && w.graced[SAMPLE].enteredGraceAt == 15
    ensures var r := Step(w, 1000, TopUpIx(SUBSCRIBER, SAMPLE, SUBSCRIBER_ATA, 100, true));
      && r.Ok? && HasPlan(r.value) && Balances(r.value.bank, 100, 800) && HasSub(r.value, Active, 200, 100, 985)
      && SAMPLE !in r.value.graced
  {
  }

  lemma ChargeAgainSample(w: World)
    requires HasPlan(w) && Balances(w.bank, 100, 800) && HasSub(w, Active, 200, 100, 985) && SAMPLE !in w.graced
    ensures var r := Step(w, 1005, ChargeIx(SAMPLE, SAMPLE_PLAN, MERCHANT_ATA, true));
      && r.Ok? && HasSub(r.value, GracePeriod, 200, 200, 985)
      && SAMPLE in r.value.graced && r.value.graced[SAMPLE].enteredGraceAt == 1005
  {
  }

  /**
   * The overshoot is real: a plan of 100 per 10 seconds, prefunded for one period, charged at second 15 and
   * topped up at second 1000, lets the merchant claim 50 in the very instant of recovery.
   */
  lemma LateGraceOvershoots()
    ensures Forward(ToppedUp()) && SAMPLE in After(ToppedUp()).subs
    ensures var s := After(ToppedUp()).subs[SAMPLE];
      s.state.Active? && s.period == 10 && s.streamStart <= 1000 && Claimable(s, 1000) == 50
  {
    PlanSample();
    hide Step, HasPlan, Balances;
    SubscribeSample(After(Planned()));
    ChargeSample(After(Subscribed()));
    TopUpSample(After(ChargedLate()));
  }

  /** A second grace account in one lifetime: the same subscription, charged once more five seconds after its top-up. */
  lemma CreatedTwice()
    ensures Forward(ExhaustedAgain()) && SAMPLE in After(ExhaustedAgain()).graced
    ensures After(ExhaustedAgain()).graced[SAMPLE].enteredGraceAt == 1005
    ensures Entries(ExhaustedAgain(), SAMPLE) == 2 && Recoveries(ExhaustedAgain(), SAMPLE) == 1
  {
    hide Step, HasPlan, Balances;
    PlanSample();
    SubscribeSample(After(Planned()));
    ChargeSample(After(Subscribed()));
    TopUpSample(After(ChargedLate()));
    ChargeAgainSample(After(ToppedUp()));
    assert Entries(Subscribed(), SAMPLE) == 0 && Recoveries(Subscribed(), SAMPLE) == 0;
    assert Entries(ChargedLate(), SAMPLE) == 1 && Recoveries(ChargedLate(), SAMPLE) == 0;
    assert Entries(ToppedUp(), SAMPLE) == 1 && Recoveries(ToppedUp(), SAMPLE) == 1;
  }

  lemma PlanSample()
    ensures var w := After(Planned());
      HasPlan(w) && Balances(w.bank, 0, 1000) && SAMPLE !in w.subs && SAMPLE !in w.bank.vaults && w.graced == map[]
  {
  }
}
