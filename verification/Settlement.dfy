/**
 * The stopwatch behind the shifted anchor. `ActiveSeconds` counts, from the history alone, the seconds a
 * subscription has spent Active; every anchor the program keeps turns out to encode exactly that count,
 * and every settlement is exactly what that count has earned.
 */
module Settlement {
  import opened Integers
  import opened State
  import opened StreamMath
  import opened Handlers
  import opened Books
  import opened Invariants
  import opened Runs
  import opened Routing

  predicate IsActive(w: World, k: SubKey) {
    k in w.subs && w.subs[k].state.Active?
  }

  /** Seconds the current lifetime of address `k` has spent Active; a lifetime begins when the record appears. */
  function ActiveSeconds(r: Run, k: SubKey): int {
    match r
    case Genesis(_) => 0
    case Then(earlier, now, _) =>
      if k !in After(earlier).subs && k in After(r).subs then 0
      else ActiveSeconds(earlier, k) + Ticked(After(earlier), k, now - Clock(earlier))
  }

  function Ticked(w: World, k: SubKey, seconds: int): int {
    if IsActive(w, k) then seconds else 0
  }

  /** The instant the stream last stopped or, while it runs, the instant `t` itself. */
  function StreamEnd(w: World, k: SubKey, t: int): int
    requires k in w.subs
    requires w.subs[k].state.Paused? ==> k in w.paused
    requires w.subs[k].state.GracePeriod? ==> k in w.graced
  {
    match w.subs[k].state
    case Paused => w.paused[k].pausedAt
    case GracePeriod => w.graced[k].enteredGraceAt
    case _ => t
  }

  /** At instant `t`, with `active` seconds on the stopwatch, the anchor and the withdrawals of `k` are right. */
  ghost predicate Timely(w: World, k: SubKey, t: int, active: int) {
    k in w.subs ==>
      var s := w.subs[k];
      && s.period > 0 && active >= 0 && s.streamStart >= 0
      && (s.state.Paused? ==> k in w.paused) && (s.state.GracePeriod? ==> k in w.graced)
      && (Live(s.state) ==> StreamEnd(w, k, t) - s.streamStart == active && StreamEnd(w, k, t) <= t)
      && s.withdrawn <= Unlocked(active, s.price, s.period, s.deposited)
      && (s.state.GracePeriod? ==> Unlocked(active, s.price, s.period, s.deposited) == s.deposited)
      && (s.state.Cancelled? ==> s.withdrawn == Unlocked(active, s.price, s.period, s.deposited))
  }

  /** Books of an address whose lifetime has ended and whose record may be gone. */
  ghost predicate ClosedBook(w: World, k: SubKey, active: int) {
    var b := BookOf(w.bank.journal, k);
    b.deposits > 0 ==>
      && active >= 0 && k.plan in w.plans && w.plans[k.plan].period > 0
      && b.Receipts() == Unlocked(active, w.plans[k.plan].price, w.plans[k.plan].period, b.deposits)
      && b.refunded == b.deposits - b.Receipts()
  }

  ghost predicate Right(w: World, k: SubKey, t: int, active: int) {
    Timely(w, k, t, active) && (k !in w.subs ==> ClosedBook(w, k, active))
  }

  // ----- time passes -----

  lemma TimePasses(w: World, k: SubKey, t: int, t': int, active: int)
    requires Right(w, k, t, active) && t <= t'
    ensures Right(w, k, t', active + Ticked(w, k, t' - t))
  {
    hide BookOf;
    if IsActive(w, k) {
      var s := w.subs[k];
      UnlockedMonotone(active, active + (t' - t), s.price, s.period, s.deposited, s.deposited);
    }
  }

  // ----- each instruction, at a fixed instant -----

  lemma SubscribeTimely(w: World, now: I64, subscriber: Key, plan: PlanKey, ata: Key, periods: U8)
    requires SubscribeStep(w, now, subscriber, plan, ata, periods).Ok? && now >= 0
    ensures Timely(SubscribeStep(w, now, subscriber, plan, ata, periods).value, SubKey(subscriber, plan), now, 0)
  {
    hide Deposit;
  }

  lemma ChargeTimely(w: World, now: I64, k: SubKey, plan: PlanKey, ata: Key, g: bool, active: int)
    requires ChargeStep(w, now, k, plan, ata, g).Ok? && Timely(w, k, now, active)
    ensures Timely(ChargeStep(w, now, k, plan, ata, g).value, k, now, active)
  {
    hide Withdraw, Accrued, NextChargeAt;
  }

  lemma ChargeSettles(w: World, now: I64, k: SubKey, ix: Instruction, active: int)
    requires ix.ChargeIx? && ix.sub == k && Step(w, now, ix).Ok? && Timely(w, k, now, active)
    ensures active >= 0 && k in w.subs && k in Step(w, now, ix).value.subs
    ensures var s := Step(w, now, ix).value.subs[k];
      && s.period > 0 && Live(s.state) && s.withdrawn == Unlocked(active, s.price, s.period, s.deposited)
  {
    hide Withdraw, Accrued, NextChargeAt;
  }

  lemma TopUpTimely(w: World, now: I64, subscriber: Key, k: SubKey, ata: Key, amount: U64, g: bool, active: int)
    requires TopUpStep(w, now, subscriber, k, ata, amount, g).Ok? && Timely(w, k, now, active)
    ensures Timely(TopUpStep(w, now, subscriber, k, ata, amount, g).value, k, now, active)
  {
    hide Deposit, Accrued;
    var s := w.subs[k];
    UnlockedMonotone(active, active, s.price, s.period, s.deposited, s.deposited + amount);
  }

  lemma PauseResumeTimely(w: World, now: I64, merchant: Key, k: SubKey, active: int)
    requires Timely(w, k, now, active)
    ensures PauseStep(w, now, merchant, k).Ok? ==> Timely(PauseStep(w, now, merchant, k).value, k, now, active)
    ensures ResumeStep(w, now, merchant, k).Ok? ==> Timely(ResumeStep(w, now, merchant, k).value, k, now, active)
  {
    hide Accrued;
  }

  lemma SettleTimely(w: World, now: I64, f: Key, k: SubKey, id: U64, ata: Key, amount: U64, active: int)
    requires SettleUsageStep(w, now, f, k, id, ata, amount).Ok? && Timely(w, k, now, active)
    ensures Timely(SettleUsageStep(w, now, f, k, id, ata, amount).value, k, now, active)
  {
    hide Withdraw, Accrued;
  }

  lemma DonateTimely(w: World, now: I64, owner: Key, from: Key, k: SubKey, amount: U64, active: int)
    requires DonateStep(w, owner, from, k, amount).Ok? && Timely(w, k, now, active)
    ensures Timely(DonateStep(w, owner, from, k, amount).value, k, now, active)
  {
    hide Deposit, Accrued;
  }

  /** The three effective ends of a cancellation all unlock what the stopwatch has earned. */
  lemma CancelUnlocks(w: World, now: I64, signer: Key, k: SubKey, rentTo: Key, mAta: Key, sAta: Key, g: bool,
                      p: bool, active: int)
    requires CancelGuards(w, now, signer, k, rentTo, mAta, sAta, g, p).Ok? && Timely(w, k, now, active)
    requires k in w.graced ==> w.graced[k].enteredGraceAt <= w.graced[k].graceUntil
    ensures CancelGuards(w, now, signer, k, rentTo, mAta, sAta, g, p).value
         == Unlocked(active, w.subs[k].price, w.subs[k].period, w.subs[k].deposited)
  {
    hide Accrued;
    var s := w.subs[k];
    var end := EffectiveNow(w, now, k, g, p).value;
    if s.state.GracePeriod? {
      UnlockedMonotone(active, end - s.streamStart, s.price, s.period, s.deposited, s.deposited);
    }
  }

  lemma CancelTimely(w: World, now: I64, signer: Key, k: SubKey, rentTo: Key, mAta: Key, sAta: Key, g: bool,
                     p: bool, active: int)
    requires CancelStep(w, now, signer, k, rentTo, mAta, sAta, g, p).Ok? && Timely(w, k, now, active)
    requires k in w.graced ==> w.graced[k].enteredGraceAt <= w.graced[k].graceUntil
    ensures Timely(CancelStep(w, now, signer, k, rentTo, mAta, sAta, g, p).value, k, now, active)
  {
    CancelUnlocks(w, now, signer, k, rentTo, mAta, sAta, g, p, active);
    hide WithdrawAny, Accrued, CancelGuards;
  }

  lemma CleanupCloses(w: World, subscriber: Key, k: SubKey, t: int, active: int)
    requires CleanupStep(w, subscriber, k).Ok? && Timely(w, k, t, active) && KeyOk(w, k)
    ensures ClosedBook(CleanupStep(w, subscriber, k).value, k, active)
  {
    hide BookOf, Accrued;
  }

  lemma AlikeRight(w: World, w': World, k: SubKey, t: int, active: int)
    requires Right(w, k, t, active) && Alike(w, w', k) && PlansGrow(w, w')
    ensures Right(w', k, t, active)
  {
    hide BookOf, Accrued;
  }

  /** An instruction at instant `now` leaves the stopwatch alone, except that a new lifetime starts it at zero. */
  lemma StepRight(w: World, now: I64, ix: Instruction, k: SubKey, active: int)
    requires Inv(w) && Step(w, now, ix).Ok? && Right(w, k, now, active) && now >= 0
    ensures var w' := Step(w, now, ix).value;
      Right(w', k, now, if k !in w.subs && k in w'.subs then 0 else active)
  {
    var w' := Step(w, now, ix).value;
    assert KeyOk(w, k);
    StepContained(w, now, ix, k);
    if Target(ix) != Some(k) {
      AlikeRight(w, w', k, now, active);
    } else {
      TargetRight(w, now, ix, k, active);
    }
  }

  lemma TargetRight(w: World, now: I64, ix: Instruction, k: SubKey, active: int)
    requires Step(w, now, ix).Ok? && Target(ix) == Some(k) && KeyOk(w, k) && Right(w, k, now, active) && now >= 0
    ensures var w' := Step(w, now, ix).value;
      Right(w', k, now, if k !in w.subs && k in w'.subs then 0 else active)
  {
    hide BookOf, Accrued, Timely, ClosedBook, KeyOk, SubscribeStep, ChargeStep, TopUpStep, PauseStep, ResumeStep,
         CancelStep, CleanupStep, SettleUsageStep, DonateStep;
    KnownKey(w, k);
    TargetRecord(w, now, ix, k);
    match ix
    case Subscribe(s, plan, ata, n) => SubscribeTimely(w, now, s, plan, ata, n);
    case ChargeIx(_, plan, ata, g) => ChargeTimely(w, now, k, plan, ata, g, active);
    case TopUpIx(s, _, ata, amount, g) => TopUpTimely(w, now, s, k, ata, amount, g, active);
    case Pause(m, _) => PauseResumeTimely(w, now, m, k, active);
    case Resume(m, _) => PauseResumeTimely(w, now, m, k, active);
    case Cancel(signer, _, rentTo, mAta, sAta, g, p) => CancelTimely(w, now, signer, k, rentTo, mAta, sAta, g, p, active);
    case Cleanup(s, _) => CleanupCloses(w, s, k, now, active); GoneIsTimely(w, s, k, now, active);
    case OpenSession(_, _, _, _, _) => AlikeRight(w, Step(w, now, ix).value, k, now, active);
    case CloseSession(_, _, _) => AlikeRight(w, Step(w, now, ix).value, k, now, active);
    case SettleUsage(f, _, id, ata, amount) => SettleTimely(w, now, f, k, id, ata, amount, active);
    case Donate(owner, from, _, amount) => DonateTimely(w, now, owner, from, k, amount, active);
  }

  /** A subscription's record appears with `subscribe`, goes with `cleanup`, and stays through everything else. */
  lemma TargetRecord(w: World, now: I64, ix: Instruction, k: SubKey)
    requires Step(w, now, ix).Ok? && Target(ix) == Some(k) && (k in w.bank.vaults ==> k in w.subs)
    ensures k in w.subs <==> !ix.Subscribe?
    ensures k in Step(w, now, ix).value.subs <==> !ix.Cleanup?
  {
    hide Elapsed, Unlocked, NextChargeAt, EffectiveNow, Recovered, Withdraw, Deposit, WithdrawAny;
  }

  lemma KnownKey(w: World, k: SubKey)
    requires KeyOk(w, k)
    ensures k in w.bank.vaults ==> k in w.subs
    ensures k in w.graced ==> w.graced[k].enteredGraceAt <= w.graced[k].graceUntil
  {
    hide BookOf;
  }

  lemma GoneIsTimely(w: World, subscriber: Key, k: SubKey, t: int, active: int)
    requires CleanupStep(w, subscriber, k).Ok?
    ensures Timely(CleanupStep(w, subscriber, k).value, k, t, active)
  {
  }

  /**
   * The stopwatch: in every state reached with a clock that never runs backwards, the anchor of each
   * subscription encodes exactly the seconds it has spent Active, whatever pauses, grace periods, top-ups
   * and re-subscriptions came before, and never more than those seconds have earned has been withdrawn.
   */
  lemma {:induction false} Stopwatch(r: Run, k: SubKey)
    requires Funded(r) && Forward(r)
    ensures Clock(r) >= 0
    ensures Right(After(r), k, Clock(r), ActiveSeconds(r, k))
  {
    match r
    case Genesis(_) =>
    case Then(earlier, now, ix) =>
      Stopwatch(earlier, k);
      StopwatchStep(earlier, now, ix, k);
  }

  lemma {:induction false} StopwatchStep(earlier: Run, now: I64, ix: Instruction, k: SubKey)
    requires Funded(earlier) && 0 <= Clock(earlier) <= now
    requires Right(After(earlier), k, Clock(earlier), ActiveSeconds(earlier, k))
    ensures var r := Then(earlier, now, ix); Right(After(r), k, now, ActiveSeconds(r, k))
  {
    hide Right, Inv, Step, KeyOk, IsActive;
    var w := After(earlier);
    TimePasses(w, k, Clock(earlier), now, ActiveSeconds(earlier, k));
    RunInvariant(earlier);
    if Step(w, now, ix).Ok? {
      StepRight(w, now, ix, k, ActiveSeconds(earlier, k) + Ticked(w, k, now - Clock(earlier)));
    }
  }

  /** The stopwatch read at `now`, which may be later than the last instruction. */
  function ActiveBy(r: Run, k: SubKey, now: int): int {
    ActiveSeconds(r, k) + Ticked(After(r), k, now - Clock(r))
  }

  /** Everything known of address `k` when the next instruction is about to run at `now`. */
  lemma {:induction false} Reached(r: Run, k: SubKey, now: I64)
    requires Funded(r) && Forward(r) && Clock(r) <= now
    ensures now >= 0 && Inv(After(r)) && KeyOk(After(r), k) && Timely(After(r), k, now, ActiveBy(r, k, now))
  {
    hide Step, KeyOk, Timely, ClosedBook, After, Forward, Clock, ActiveSeconds;
    Stopwatch(r, k);
    RunInvariant(r);
    TimePasses(After(r), k, Clock(r), now, ActiveSeconds(r, k));
    assert KeyOk(After(r), k);
  }

  lemma {:induction false} FinalBooks(r: Run, k: SubKey)
    requires Funded(r) && Forward(r)
    requires k in After(r).subs ==> After(r).subs[k].state.Cancelled?
    requires BookOf(After(r).bank.journal, k).deposits > 0
    ensures k.plan in After(r).plans && After(r).plans[k.plan].period > 0 && ActiveSeconds(r, k) >= 0
    ensures var b, p := BookOf(After(r).bank.journal, k), After(r).plans[k.plan];
      && b.Receipts() == Min(ActiveSeconds(r, k) * p.price / p.period, b.deposits)
      && b.refunded == b.deposits - b.Receipts()
  {
    hide BookOf;
    Stopwatch(r, k);
    RunInvariant(r);
    assert KeyOk(After(r), k);
  }

  /**
   * Final settlement: once a lifetime has ended, by subscriber or merchant, from Active, Paused or
   * GracePeriod, and even after its record was cleaned up, the account the plan names for its merchant has been
   * paid exactly `min(floor(A * price / period), D)`, accounts of the subscriber have been refunded exactly the
   * rest, and nobody else has received anything; `A` is the seconds spent Active and `D` what accounts of the
   * subscriber deposited.
   */
  lemma {:induction false} FinalSettlement(r: Run, k: SubKey)
    requires Funded(r) && Forward(r)
    requires k in After(r).subs ==> After(r).subs[k].state.Cancelled?
    requires BookOf(After(r).bank.journal, k).deposits > 0
    ensures k.plan in After(r).plans && After(r).plans[k.plan].period > 0 && ActiveSeconds(r, k) >= 0
    ensures var j, p := After(r).bank.journal, After(r).plans[k.plan];
      var deposits := FundedBy(j, k, k.subscriber);
      && PaidInto(j, k, p.merchantAta) == Min(ActiveSeconds(r, k) * p.price / p.period, deposits)
      && RefundedTo(j, k, k.subscriber) == deposits - PaidInto(j, k, p.merchantAta)
      && BookOf(j, k).deposits == deposits
      && BookOf(j, k).Receipts() == PaidInto(j, k, p.merchantAta) && BookOf(j, k).refunded == RefundedTo(j, k, k.subscriber)
  {
    hide BookOf, PaidInto, RefundedTo, FundedBy, Routed, After, ActiveSeconds;
    FinalBooks(r, k);
    EscrowIsRouted(r);
    BooksHaveOwners(After(r).plans, After(r).bank.journal, k);
  }

  /** The last thing that happened in `r` is a successful charge of `k`. */
  predicate JustCharged(r: Run, k: SubKey) {
    r.Then? && r.ix.ChargeIx? && r.ix.sub == k && Step(After(r.earlier), r.now, r.ix).Ok?
  }

  lemma {:induction false} ChargedBooks(r: Run, k: SubKey)
    requires Funded(r) && Forward(r) && JustCharged(r, k)
    ensures k.plan in After(r).plans && After(r).plans[k.plan].period > 0 && ActiveSeconds(r, k) >= 0
    ensures var b, p := BookOf(After(r).bank.journal, k), After(r).plans[k.plan];
      b.Receipts() == b.charged + b.settled == Unlocked(ActiveSeconds(r, k), p.price, p.period, b.deposits)
  {
    ChargedRecord(r, k);
    RunInvariant(r);
    assert KeyOk(After(r), k);
    hide BookOf, Accrued, After, ActiveSeconds, Step;
  }

  /**
   * Two writers, one stream: right after a successful charge the merchant's account has been paid, through
   * charges and usage settlements together, exactly what the stopwatch has earned, whatever their order, number
   * or sizes were. Nothing is lost to rounding along the way.
   */
  lemma {:induction false} ChargeCatchesUp(r: Run, k: SubKey)
    requires Funded(r) && Forward(r) && JustCharged(r, k)
    ensures k.plan in After(r).plans && After(r).plans[k.plan].period > 0 && ActiveSeconds(r, k) >= 0
    ensures var j, p := After(r).bank.journal, After(r).plans[k.plan];
      && PaidInto(j, k, p.merchantAta)
         == Unlocked(ActiveSeconds(r, k), p.price, p.period, FundedBy(j, k, k.subscriber))
      && PaidInto(j, k, p.merchantAta) == BookOf(j, k).charged + BookOf(j, k).settled
  {
    hide BookOf, PaidInto, RefundedTo, FundedBy, Routed, After, ActiveSeconds, Unlocked, JustCharged;
    ChargedBooks(r, k);
    EscrowIsRouted(r);
    BooksHaveOwners(After(r).plans, After(r).bank.journal, k);
  }

  lemma {:induction false} ChargedRecord(r: Run, k: SubKey)
    requires Funded(r) && Forward(r) && JustCharged(r, k)
    ensures k in After(r).subs && ActiveSeconds(r, k) >= 0
    ensures var s := After(r).subs[k];
      && s.period > 0 && Live(s.state)
      && s.withdrawn == Unlocked(ActiveSeconds(r, k), s.price, s.period, s.deposited)
  {
    hide Step, BookOf, Accrued, Live, Timely, Inv, KeyOk, IsActive;
    Reached(r.earlier, k, r.now);
    ChargeSettles(After(r.earlier), r.now, k, r.ix, ActiveBy(r.earlier, k, r.now));
  }

  /**
   * Path independence: two histories that end in a charge with the same deposits and Active time have paid the
   * merchant's account the same.
   */
  lemma {:induction false} PathIndependence(r: Run, r': Run, k: SubKey)
    requires Funded(r) && Forward(r) && JustCharged(r, k)
    requires Funded(r') && Forward(r') && JustCharged(r', k)
    requires ActiveSeconds(r, k) == ActiveSeconds(r', k)
    requires k.plan in After(r).plans && k.plan in After(r').plans && After(r).plans[k.plan] == After(r').plans[k.plan]
    requires FundedBy(After(r).bank.journal, k, k.subscriber) == FundedBy(After(r').bank.journal, k, k.subscriber)
    ensures var ata := After(r).plans[k.plan].merchantAta;
      PaidInto(After(r).bank.journal, k, ata) == PaidInto(After(r').bank.journal, k, ata)
  {
    hide BookOf, Accrued, After, ActiveSeconds, JustCharged, Forward, Funded, PaidInto, FundedBy;
    ChargeCatchesUp(r, k);
    ChargeCatchesUp(r', k);
  }
}
