/**
 * The status both off-chain clients derive from a subscription record: the Rust derivation with its saturating
 * u128 arithmetic, the TypeScript one with unbounded integers, and how they relate to the program and to
 * each other.
 */
module ReadModel {
  import opened Integers
  import opened State
  import opened StreamMath
  import opened Handlers
  import opened Books
  import opened Invariants
  import opened Runs
  import opened Settlement
  import opened Views
  import opened Keeper
  import opened Grace
  import opened Samples

  const ACTIVE_LOW_FUNDS_DAYS := 7
  const LOW_FUNDS_PERCENT := 80
  const SECONDS_PER_DAY := 86_400

  datatype ComputedStatus =
    | Active(unlockedPct: int, claimable: int)
    | ActiveLowFunds(unlockedPct: int, claimable: int, daysRemaining: int)
    | Paused
    | InGrace(graceUntil: I64, secondsRemaining: int)
    | GraceExpired(graceUntil: I64)
    | Cancelled
    | Exhausted
    | Corrupt

  // ----- the Rust client -----

  type U128 = x: int | 0 <= x <= U128_MAX

  function SaturatingMul(a: U128, b: U128): U128 {
    MulMonotone(0, a, b);
    Min(a * b, U128_MAX)
  }

  function SaturatingSub(a: U128, b: U128): U128 {
    if a >= b then a - b else 0
  }

  function CheckedDiv(a: U128, b: U128): Option<U128> {
    if b == 0 then None else Some(a / b)
  }

  /** i64 `saturating_sub` followed by `max(0)`. */
  function SecondsSince(now: I64, start: I64): U128 {
    if now < start then 0 else Min(now - start, I64_MAX)
  }

  /** `as u128` sign-extends a negative i64. */
  function Widened(x: I64): U128 {
    if x >= 0 then x else x + U128_MAX + 1
  }

  function ClaimableNow(v: SubscriptionView, now: I64): U128 {
    var accrued := match CheckedDiv(SaturatingMul(SecondsSince(now, v.streamStart), v.price), Widened(v.period))
      case Some(a) => a
      case None => 0;
    SaturatingSub(Min(accrued, v.deposited), v.withdrawn)
  }

  function UnlockedPct(v: SubscriptionView): int {
    match CheckedDiv(SaturatingMul(v.withdrawn, 100), v.deposited)
    case Some(p) => Min(p, 100)
    case None => 0
  }

  function DaysRemaining(v: SubscriptionView): U32 {
    if v.price == 0 then U32_MAX else
    match CheckedDiv(SaturatingMul(SaturatingSub(v.deposited, v.withdrawn), Widened(v.period)),
                     SaturatingMul(v.price, SECONDS_PER_DAY))
    case Some(days) => Min(days, U32_MAX)
    case None => U32_MAX
  }

  function ActiveOrLowFunds(v: SubscriptionView, now: I64): ComputedStatus {
    var utilizationLow := v.deposited > 0 && SaturatingMul(v.withdrawn, 100) > SaturatingMul(v.deposited, LOW_FUNDS_PERCENT);
    var runwayLow := DaysRemaining(v) < ACTIVE_LOW_FUNDS_DAYS;
    if utilizationLow || runwayLow then ActiveLowFunds(UnlockedPct(v), ClaimableNow(v, now), DaysRemaining(v))
    else ComputedStatus.Active(UnlockedPct(v), ClaimableNow(v, now))
  }

  function DeriveStatus(v: SubscriptionView, graced: Option<GracedSubscription>, paused: Option<PausedSubscription>, now: I64)
    : ComputedStatus
  {
    match FromByte(v.state)
    case Known(Active) => ActiveOrLowFunds(v, now)
    case Known(Paused) => ComputedStatus.Paused
    case Known(GracePeriod) =>
      if graced.None? then Corrupt
      else if now <= graced.value.graceUntil then
        InGrace(graced.value.graceUntil, Min(graced.value.graceUntil - now, I64_MAX))
      else GraceExpired(graced.value.graceUntil)
    case Known(Cancelled) => ComputedStatus.Cancelled
    case Known(Exhausted) => ComputedStatus.Exhausted
    case Unknown(_) => Corrupt
  }

  // ----- the TypeScript client -----

  /** BigInt division, which truncates toward zero. */
  function Truncated(a: int, b: int): int
    requires b > 0
  {
    if a >= 0 then a / b else -(-a / b)
  }

  function ClaimableNowTs(v: SubscriptionView, now: I64): int {
    var elapsed := if now > v.streamStart then now - v.streamStart else 0;
    var accrued := if v.period > 0 then Truncated(elapsed * v.price, v.period) else 0;
    var unlocked := if accrued < v.deposited then accrued else v.deposited;
    if unlocked > v.withdrawn then unlocked - v.withdrawn else 0
  }

  function UnlockedPctTs(v: SubscriptionView): int {
    if v.deposited == 0 then 0 else Min(100, Truncated(v.withdrawn * 100, v.deposited))
  }

  function DaysRemainingTs(v: SubscriptionView): int {
    if v.price == 0 then U32_MAX else
    Truncated((if v.deposited > v.withdrawn then v.deposited - v.withdrawn else 0) * v.period, v.price * SECONDS_PER_DAY)
  }

  function DeriveStatusTs(v: SubscriptionView, graced: Option<GracedSubscription>, paused: Option<PausedSubscription>, now: I64)
    : ComputedStatus
  {
    match FromByte(v.state)
    case Known(Active) =>
      if UnlockedPctTs(v) > LOW_FUNDS_PERCENT || DaysRemainingTs(v) < ACTIVE_LOW_FUNDS_DAYS
      then ActiveLowFunds(UnlockedPctTs(v), ClaimableNowTs(v, now), DaysRemainingTs(v))
      else ComputedStatus.Active(UnlockedPctTs(v), ClaimableNowTs(v, now))
    case Known(Paused) => ComputedStatus.Paused
    case Known(GracePeriod) =>
      if graced.None? then Corrupt
      else if now <= graced.value.graceUntil then InGrace(graced.value.graceUntil, graced.value.graceUntil - now)
      else GraceExpired(graced.value.graceUntil)
    case Known(Cancelled) => ComputedStatus.Cancelled
    case Known(Exhausted) => ComputedStatus.Exhausted
    case Unknown(_) => Corrupt
  }

  // ----- the saturating arithmetic -----

  /** The clock readings both clients handle alike: no i64 difference leaves i64, and the period is not negative. */
  predicate Readable(v: SubscriptionView, graced: Option<GracedSubscription>, now: int) {
    && v.period >= 0 && now - v.streamStart <= I64_MAX
    && (graced.Some? ==> graced.value.graceUntil - now <= I64_MAX)
  }

  /** None of the products of the Rust derivation reaches the u128 ceiling. */
  lemma NeverSaturates(v: SubscriptionView, now: I64)
    requires v.period >= 0 && now - v.streamStart <= I64_MAX
    ensures var elapsed := if now < v.streamStart then 0 else now - v.streamStart;
      && SecondsSince(now, v.streamStart) == elapsed && Widened(v.period) == v.period
      && SaturatingMul(elapsed, v.price) == elapsed * v.price
    ensures var remaining := SaturatingSub(v.deposited, v.withdrawn);
      && SaturatingMul(remaining, v.period) == remaining * v.period >= 0
      && SaturatingMul(v.price, SECONDS_PER_DAY) == v.price * SECONDS_PER_DAY
      && SaturatingMul(v.withdrawn, 100) == v.withdrawn * 100
      && SaturatingMul(v.deposited, LOW_FUNDS_PERCENT) == v.deposited * LOW_FUNDS_PERCENT
  {
    var elapsed := if now < v.streamStart then 0 else now - v.streamStart;
    ProductFits(elapsed, v.price);
    ProductFits(v.period, SaturatingSub(v.deposited, v.withdrawn));
    assert v.period * SaturatingSub(v.deposited, v.withdrawn) == SaturatingSub(v.deposited, v.withdrawn) * v.period;
  }

  // ----- Rust against TypeScript -----

  lemma SamePayload(v: SubscriptionView, now: I64)
    requires v.period >= 0 && now - v.streamStart <= I64_MAX
    ensures ClaimableNow(v, now) == ClaimableNowTs(v, now)
    ensures UnlockedPct(v) == UnlockedPctTs(v)
    ensures DaysRemaining(v) == Min(DaysRemainingTs(v), U32_MAX)
  {
    NeverSaturates(v, now);
    hide SaturatingMul;
  }

  /** Between 80% and 81% used, with a week or more of runway left, only Rust says low funds. */
  predicate LowFundsGap(v: SubscriptionView) {
    && 80 * v.deposited < 100 * v.withdrawn < 81 * v.deposited
    && (v.deposited - v.withdrawn) * v.period >= 7 * (v.price * 86_400)
  }

  /** More than 81% used, and more runway than the Rust client's u32 can hold. */
  predicate RunwayCapped(v: SubscriptionView) {
    && 100 * v.withdrawn >= 81 * v.deposited > 0 && v.price > 0
    && (v.deposited - v.withdrawn) * v.period >= 4_294_967_296 * (v.price * 86_400)
  }

  lemma PctThreshold(v: SubscriptionView)
    ensures UnlockedPctTs(v) > LOW_FUNDS_PERCENT
       <==> v.deposited > 0 && 100 * v.withdrawn >= (LOW_FUNDS_PERCENT + 1) * v.deposited
  {
    if v.deposited > 0 { FloorReaches(v.withdrawn * 100, v.deposited, LOW_FUNDS_PERCENT + 1); }
  }

  lemma DaysReach(v: SubscriptionView, q: int)
    requires v.period >= 0 && v.price > 0 && q > 0
    ensures DaysRemainingTs(v) >= q <==> (v.deposited - v.withdrawn) * v.period >= q * (v.price * SECONDS_PER_DAY)
  {
    var remaining := if v.deposited > v.withdrawn then v.deposited - v.withdrawn else 0;
    assert q * (v.price * SECONDS_PER_DAY) > 0;
    MulMonotone(0, v.period, remaining);
    assert remaining * v.period >= 0;
    FloorReaches(remaining * v.period, v.price * SECONDS_PER_DAY, q);
    if v.deposited <= v.withdrawn { MulMonotone(v.deposited - v.withdrawn, 0, v.period); }
  }

  /**
   * The two clients against each other, for every record, satellite and clock reading whose differences fit
   * i64: they agree on everything they display if and only if the record is not Active inside the low-funds
   * gap and its runway does not exceed the Rust cap. Inside the gap only Rust raises the banner, with the same
   * percentage and claimable amount.
   */
  lemma ClientsAgree(v: SubscriptionView, graced: Option<GracedSubscription>, paused: Option<PausedSubscription>, now: I64)
    requires Readable(v, graced, now)
    ensures var rust, ts := DeriveStatus(v, graced, paused, now), DeriveStatusTs(v, graced, paused, now);
      var active := FromByte(v.state) == Known(SubscriptionState.Active);
      && (rust == ts <==> !(active && (LowFundsGap(v) || RunwayCapped(v))))
      && (active && LowFundsGap(v) ==>
            rust == ActiveLowFunds(ts.unlockedPct, ts.claimable, DaysRemaining(v)) && ts.Active?)
      && (ts.ActiveLowFunds? ==> rust == ts.(daysRemaining := Min(ts.daysRemaining, U32_MAX)))
  {
    hide ClaimableNow, ClaimableNowTs, DaysRemaining, DaysRemainingTs, UnlockedPct, UnlockedPctTs, SaturatingMul;
    SamePayload(v, now);
    NeverSaturates(v, now);
    PctThreshold(v);
    SentinelDays(v);
    if v.price > 0 {
      DaysReach(v, ACTIVE_LOW_FUNDS_DAYS);
      DaysReach(v, U32_MAX + 1);
    }
  }

  lemma SentinelDays(v: SubscriptionView)
    requires v.period >= 0
    ensures v.price == 0 ==> DaysRemainingTs(v) == U32_MAX
    ensures v.deposited >= v.withdrawn ==> (v.deposited - v.withdrawn) * v.period >= 0
  {
    if v.deposited >= v.withdrawn { MulMonotone(0, v.deposited - v.withdrawn, v.period); }
  }

  // ----- what is shown for a running stream -----

  /** When the Rust client raises the banner: more than 80% used, or less than seven days of 86,400 seconds left. */
  predicate RunsLow(v: SubscriptionView) {
    || (v.deposited > 0 && 100 * v.withdrawn > 80 * v.deposited)
    || v.withdrawn >= v.deposited
    || (v.deposited - v.withdrawn) * v.period < 7 * (v.price * 86_400)
  }

  lemma ShownLowIff(v: SubscriptionView, now: I64)
    requires v.period > 0 && v.price > 0 && now - v.streamStart <= I64_MAX
    ensures ActiveOrLowFunds(v, now).ActiveLowFunds? <==> RunsLow(v)
    ensures ActiveOrLowFunds(v, now).ActiveLowFunds? && v.withdrawn <= v.deposited ==>
      ActiveOrLowFunds(v, now).daysRemaining == Min((v.deposited - v.withdrawn) * v.period / (v.price * 86_400), 4_294_967_295)
  {
    hide ClaimableNow, UnlockedPct, DaysRemaining, DaysRemainingTs, SaturatingMul;
    SamePayload(v, now);
    NeverSaturates(v, now);
    DaysReach(v, ACTIVE_LOW_FUNDS_DAYS);
    if v.withdrawn <= v.deposited { DaysValue(v); }
    assert v.price * SECONDS_PER_DAY > 0;
    if v.withdrawn >= v.deposited { MulMonotone(v.deposited - v.withdrawn, 0, v.period); }
  }

  // ----- a subscription inside the gap -----

  const DAILY_PLAN: PlanKey := PlanKey(MERCHANT, 1)
  const DAILY: SubKey := SubKey(SUBSCRIBER, DAILY_PLAN)

  /** One base unit per second, prefunded for forty days. */
  function Subscribed(): Run {
    Then(Then(Genesis(map[MERCHANT_ATA := TokenAccount(MERCHANT, 0), SUBSCRIBER_ATA := TokenAccount(SUBSCRIBER, 3_456_000)]),
              0, CreatePlan(MERCHANT, 1, 86_400, 86_400, MERCHANT_ATA)),
         0, Subscribe(SUBSCRIBER, DAILY_PLAN, SUBSCRIBER_ATA, 40))
  }

  /** Charged when 80.5% of the forty days had passed. */
  function ChargedOnce(): Run {
    Then(Subscribed(), 2_782_080, ChargeIx(DAILY, DAILY_PLAN, MERCHANT_ATA, false))
  }

  predicate Daily(w: World, withdrawn: int) {
    && DAILY in w.subs && DAILY_PLAN in w.plans && DAILY in w.bank.vaults && w.bank.vaults[DAILY] == 3_456_000 - withdrawn
    && MERCHANT_ATA in w.bank.accounts && w.bank.accounts[MERCHANT_ATA].amount == withdrawn
    && var s := w.subs[DAILY];
       s.state.Active? && s.plan == DAILY_PLAN && s.price == 86_400 && s.period == 86_400 && s.streamStart == 0
       && s.deposited == 3_456_000 && s.withdrawn == withdrawn && s.merchantAta == MERCHANT_ATA
  }

  lemma DailySubscribed()
    ensures Daily(After(Subscribed()), 0)
  {
  }

  lemma DailyCharged(w: World)
    requires Daily(w, 0)
    ensures Step(w, 2_782_080, ChargeIx(DAILY, DAILY_PLAN, MERCHANT_ATA, false)).Ok?
    ensures Daily(Step(w, 2_782_080, ChargeIx(DAILY, DAILY_PLAN, MERCHANT_ATA, false)).value, 2_782_080)
  {
  }

  lemma DailyShown(w: World)
    requires Daily(w, 2_782_080)
    ensures var v := View(w.subs[DAILY]);
      && LowFundsGap(v)
      && DeriveStatus(v, None, None, 2_782_080) == ActiveLowFunds(80, 0, 7)
      && DeriveStatusTs(v, None, None, 2_782_080) == ComputedStatus.Active(80, 0)
  {
  }

  /** The gap is reachable: an ordinary subscription, charged once, that only the Rust client shows as low on funds. */
  lemma ClientsDisagree()
    ensures Forward(ChargedOnce()) && DAILY in After(ChargedOnce()).subs
    ensures var v := View(After(ChargedOnce()).subs[DAILY]);
      && LowFundsGap(v)
      && DeriveStatus(v, None, None, 2_782_080) == ActiveLowFunds(80, 0, 7)
      && DeriveStatusTs(v, None, None, 2_782_080) == ComputedStatus.Active(80, 0)
  {
    hide Step, LowFundsGap, DeriveStatus, DeriveStatusTs;
    DailySubscribed();
    DailyCharged(After(Subscribed()));
    DailyShown(After(ChargedOnce()));
  }

  // ----- a subscription above the cap -----

  /** One base unit per second, topped up to four thousand million million units, and charged when 85% had passed. */
  function Endowed(): Run {
    Then(Then(Then(Genesis(map[MERCHANT_ATA := TokenAccount(MERCHANT, 0),
                               SUBSCRIBER_ATA := TokenAccount(SUBSCRIBER, 4_000_000_000_000_000)]),
                   0, CreatePlan(MERCHANT, 1, 1, 1, MERCHANT_ATA)),
              0, Subscribe(SUBSCRIBER, DAILY_PLAN, SUBSCRIBER_ATA, 1)),
         0, TopUpIx(SUBSCRIBER, DAILY, SUBSCRIBER_ATA, 3_999_999_999_999_999, false))
  }

  function EndowedCharged(): Run {
    Then(Endowed(), 3_400_000_000_000_000, ChargeIx(DAILY, DAILY_PLAN, MERCHANT_ATA, false))
  }

  predicate Perpetual(w: World, deposited: int, withdrawn: int) {
    && DAILY in w.subs && DAILY_PLAN in w.plans && DAILY in w.bank.vaults && w.bank.vaults[DAILY] == deposited - withdrawn
    && MERCHANT_ATA in w.bank.accounts && w.bank.accounts[MERCHANT_ATA].amount == withdrawn
    && SUBSCRIBER_ATA in w.bank.accounts
    && w.bank.accounts[SUBSCRIBER_ATA].owner == SUBSCRIBER
    && w.bank.accounts[SUBSCRIBER_ATA].amount == 4_000_000_000_000_000 - deposited
    && var s := w.subs[DAILY];
       s.state.Active? && s.plan == DAILY_PLAN && s.price == 1 && s.period == 1 && s.streamStart == 0
       && s.subscriber == SUBSCRIBER && s.deposited == deposited && s.withdrawn == withdrawn && s.merchantAta == MERCHANT_ATA
  }

  lemma PerpetualSubscribed()
    ensures Perpetual(After(Endowed().earlier), 1, 0)
  {
  }

  lemma PerpetualToppedUp(w: World)
    requires Perpetual(w, 1, 0)
    ensures var r := Step(w, 0, TopUpIx(SUBSCRIBER, DAILY, SUBSCRIBER_ATA, 3_999_999_999_999_999, false));
      r.Ok? && Perpetual(r.value, 4_000_000_000_000_000, 0)
  {
  }

  lemma PerpetualCharged(w: World)
    requires Perpetual(w, 4_000_000_000_000_000, 0)
    ensures var r := Step(w, 3_400_000_000_000_000, ChargeIx(DAILY, DAILY_PLAN, MERCHANT_ATA, false));
      r.Ok? && Perpetual(r.value, 4_000_000_000_000_000, 3_400_000_000_000_000)
  {
  }

  lemma PerpetualShown(w: World)
    requires Perpetual(w, 4_000_000_000_000_000, 3_400_000_000_000_000)
    ensures var v := View(w.subs[DAILY]);
      && RunwayCapped(v)
      && DeriveStatus(v, None, None, 3_400_000_000_000_000) == ActiveLowFunds(85, 0, U32_MAX)
      && DeriveStatusTs(v, None, None, 3_400_000_000_000_000) == ActiveLowFunds(85, 0, 6_944_444_444)
  {
  }

  /** The cap is reachable too: both clients warn, and show different numbers of days. */
  lemma CapsDisagree()
    ensures Forward(EndowedCharged()) && DAILY in After(EndowedCharged()).subs
    ensures var v := View(After(EndowedCharged()).subs[DAILY]);
      && RunwayCapped(v)
      && DeriveStatus(v, None, None, 3_400_000_000_000_000) == ActiveLowFunds(85, 0, U32_MAX)
      && DeriveStatusTs(v, None, None, 3_400_000_000_000_000) == ActiveLowFunds(85, 0, 6_944_444_444)
  {
    hide Step, RunwayCapped, DeriveStatus, DeriveStatusTs;
    PerpetualSubscribed();
    PerpetualToppedUp(After(Endowed().earlier));
    PerpetualCharged(After(Endowed()));
    PerpetualShown(After(EndowedCharged()));
  }

  // ----- the read model against the program -----

  /** Seven days after it began, a grace period is still shown as running; one second later it is not. */
  predicate InGraceAt(g: GracedSubscription, now: int) {
    now <= g.enteredGraceAt + GRACE_DURATION
  }

  ghost predicate Faithful(w: World, k: SubKey, now: int, status: ComputedStatus)
    requires k in w.subs
  {
    var s := w.subs[k];
    match s.state
    case Active =>
      && (status.Active? || status.ActiveLowFunds?) && s.period > 0 && s.streamStart <= now && s.deposited > 0
      && status.claimable == Claimable(s, now)
      && status.unlockedPct == s.withdrawn * 100 / s.deposited
    case Paused => status == ComputedStatus.Paused
    case GracePeriod =>
      && k in w.graced
      && status == if InGraceAt(w.graced[k], now)
                   then InGrace(w.graced[k].graceUntil, w.graced[k].enteredGraceAt + GRACE_DURATION - now)
                   else GraceExpired(w.graced[k].graceUntil)
    case Cancelled => status == ComputedStatus.Cancelled
    case Exhausted => false
  }

  function StatusOf(w: World, k: SubKey, now: I64): ComputedStatus
    requires k in w.subs
  {
    DeriveStatus(View(w.subs[k]), Fetch(w.graced, k), Fetch(w.paused, k), now)
  }

  lemma FaithfulAt(w: World, now: I64, k: SubKey, active: int)
    requires KeyOk(w, k) && Timely(w, k, now, active) && k in w.subs && now >= 0
    ensures Readable(View(w.subs[k]), Fetch(w.graced, k), now)
    ensures Faithful(w, k, now, StatusOf(w, k, now))
  {
    hide BookOf, SaturatingMul, DaysRemaining;
    var s := w.subs[k];
    NeverSaturates(View(s), now);
    if s.state.Active? { ExactPct(View(s)); }
  }

  lemma ExactPct(v: SubscriptionView)
    requires 0 < v.deposited && v.withdrawn <= v.deposited
    ensures UnlockedPct(v) == v.withdrawn * 100 / v.deposited
  {
    FloorReaches(v.withdrawn * 100, v.deposited, 101);
  }

  /**
   * The status derived from any reachable subscription and its looked-up satellite tells the truth: it is never
   * Corrupt or Exhausted, each stored state has its own statuses, and for a running stream the claimable amount
   * is the exact one, with none of the saturating operations saturating.
   */
  lemma {:induction false} ReadModelAgrees(r: Run, now: I64, k: SubKey)
    requires Funded(r) && Forward(r) && Clock(r) <= now && k in After(r).subs
    ensures Readable(View(After(r).subs[k]), Fetch(After(r).graced, k), now)
    ensures var status := StatusOf(After(r), k, now);
      Faithful(After(r), k, now, status) && !status.Corrupt? && !status.Exhausted?
  {
    hide Step, Inv, KeyOk, Timely, Claimable, DeriveStatus;
    Reached(r, k, now);
    FaithfulAt(After(r), now, k, ActiveBy(r, k, now));
  }

  /** The countdown of a grace period is never negative, and is zero, not positive, in its last second and only then. */
  lemma CountdownEnds(v: SubscriptionView, graced: Option<GracedSubscription>, paused: Option<PausedSubscription>, now: I64)
    requires DeriveStatus(v, graced, paused, now).InGrace?
    ensures graced.Some?
    ensures DeriveStatus(v, graced, paused, now).secondsRemaining >= 0
    ensures DeriveStatus(v, graced, paused, now).secondsRemaining == 0 <==> now == graced.value.graceUntil
  {
  }

  /** That second comes: the subscription charged into grace at second 15, seven days later. */
  lemma CountdownReachesZero()
    ensures Forward(ChargedLate()) && SAMPLE in After(ChargedLate()).subs
    ensures StatusOf(After(ChargedLate()), SAMPLE, 604_815) == InGrace(604_815, 0)
  {
    hide Step, HasPlan, Balances;
    PlanSample();
    SubscribeSample(After(Planned()));
    ChargeSample(After(Grace.Subscribed()));
  }

  /**
   * The banner, over every history: a running stream is shown as low on funds if and only if more than 80% of its
   * deposit has been withdrawn or less than seven days of it remain, and then with the exact number of whole days.
   */
  lemma {:induction false} BannerIff(r: Run, now: I64, k: SubKey)
    requires Funded(r) && Forward(r) && Clock(r) <= now && IsActive(After(r), k)
    ensures var s, status := After(r).subs[k], StatusOf(After(r), k, now);
      && s.price > 0
      && (status.ActiveLowFunds? <==>
            100 * s.withdrawn > 80 * s.deposited || (s.deposited - s.withdrawn) * s.period < 7 * (s.price * 86_400))
      && (status.ActiveLowFunds? ==>
            status.daysRemaining == Min((s.deposited - s.withdrawn) * s.period / (s.price * 86_400), 4_294_967_295))
  {
    hide Step, Inv, KeyOk, Timely, ActiveOrLowFunds, RunsLow;
    ReadModelAgrees(r, now, k);
    Reached(r, k, now);
    PricePositive(After(r), k);
    DepositPositive(After(r), k);
    ShownLowIff(View(After(r).subs[k]), now);
    RunsLowOf(View(After(r).subs[k]));
  }

  lemma DepositPositive(w: World, k: SubKey)
    requires KeyOk(w, k) && k in w.subs
    ensures 0 < w.subs[k].deposited && w.subs[k].withdrawn <= w.subs[k].deposited
  {
    hide BookOf;
  }

  lemma RunsLowOf(v: SubscriptionView)
    requires 0 < v.deposited && v.withdrawn <= v.deposited
    ensures RunsLow(v)
       <==> 100 * v.withdrawn > 80 * v.deposited || (v.deposited - v.withdrawn) * v.period < 7 * (v.price * 86_400)
  {
  }

  lemma ChargePays(w: World, now: I64, k: SubKey, plan: PlanKey, ata: Key, g: bool)
    requires Step(w, now, ChargeIx(k, plan, ata, g)).Ok?
    ensures k in w.subs && w.subs[k].period > 0 && w.subs[k].streamStart <= now && ata in w.bank.accounts
    ensures var w' := Step(w, now, ChargeIx(k, plan, ata, g)).value;
      && k in w'.subs && ata in w'.bank.accounts
      && w'.bank.accounts[ata].amount == w.bank.accounts[ata].amount + Claimable(w.subs[k], now)
      && w'.subs[k].withdrawn == w.subs[k].withdrawn + Claimable(w.subs[k], now)
  {
    hide NextChargeAt, Accrued;
  }

  /**
   * What the client shows is what the next charge pays: with the grace account attached as predicted, a charge of
   * a reachable Active subscription goes through if and only if the displayed claimable amount is positive and the
   * merchant's account still exists, and then moves exactly that amount to the merchant.
   */
  lemma {:induction false} DisplayedIsPaid(r: Run, now: I64, k: SubKey, ata: Key)
    requires Funded(r) && Forward(r) && Clock(r) <= now && IsActive(After(r), k)
    requires ata == After(r).subs[k].merchantAta && ClockHasRoom(After(r).subs[k], now)
    ensures var w, status := After(r), StatusOf(After(r), k, now);
      && w.subs[k].period > 0 && w.subs[k].streamStart <= now
      && (status.Active? || status.ActiveLowFunds?)
      && var charged := Step(w, now, ChargeIx(k, k.plan, ata, Exhausts(w.subs[k], now)));
      && (charged.Ok? <==> status.claimable > 0 && ata in w.bank.accounts)
      && (charged.Ok? ==>
            && ata in charged.value.bank.accounts
            && charged.value.bank.accounts[ata].amount == w.bank.accounts[ata].amount + status.claimable)
  {
    hide Step, Inv, KeyOk, Claimable, DeriveStatus, Unlocked;
    ReadModelAgrees(r, now, k);
    Reached(r, k, now);
    var g := Exhausts(After(r).subs[k], now);
    PredictAndAttach(r, now, k, k.plan, ata, g);
    if Step(After(r), now, ChargeIx(k, k.plan, ata, g)).Ok? { ChargePays(After(r), now, k, k.plan, ata, g); }
  }

  // ----- runway -----

  /**
   * The runway is a true two-sided bound: what the stream accrues in the displayed number of days never exceeds
   * the remaining escrow, and, unless the number sits at its cap, one more day covers all of it.
   */
  lemma RunwayBounds(v: SubscriptionView)
    requires v.period > 0 && v.price > 0 && v.withdrawn <= v.deposited
    ensures var days := DaysRemaining(v);
      && Accrued(days * SECONDS_PER_DAY, v.price, v.period) <= v.deposited - v.withdrawn
      && (days < U32_MAX ==> Accrued((days + 1) * SECONDS_PER_DAY, v.price, v.period) >= v.deposited - v.withdrawn)
  {
    var days, remaining := DaysRemaining(v), v.deposited - v.withdrawn;
    DaysFloor(v);
    DayProduct(days, v.price);
    DayProduct(days + 1, v.price);
    hide DaysRemaining;
    assert (remaining + 1) * v.period == remaining * v.period + v.period;
    AccruedReaches(days * SECONDS_PER_DAY, v.price, v.period, remaining + 1);
    AccruedReaches((days + 1) * SECONDS_PER_DAY, v.price, v.period, remaining);
  }

  lemma DayProduct(days: int, price: int)
    ensures days * SECONDS_PER_DAY * price == days * (price * SECONDS_PER_DAY)
  {
  }

  lemma DaysFloor(v: SubscriptionView)
    requires v.period > 0 && v.price > 0 && v.withdrawn <= v.deposited
    ensures var days, remaining := DaysRemaining(v), v.deposited - v.withdrawn;
      && days * (v.price * SECONDS_PER_DAY) <= remaining * v.period
      && (days < U32_MAX ==> remaining * v.period < (days + 1) * (v.price * SECONDS_PER_DAY))
  {
    DaysValue(v);
    CappedFloor((v.deposited - v.withdrawn) * v.period, v.price * SECONDS_PER_DAY, U32_MAX);
    hide DaysRemaining;
  }

  lemma DaysValue(v: SubscriptionView)
    requires v.period > 0 && v.price > 0 && v.withdrawn <= v.deposited
    ensures (v.deposited - v.withdrawn) * v.period >= 0
    ensures DaysRemaining(v) == Min((v.deposited - v.withdrawn) * v.period / (v.price * SECONDS_PER_DAY), U32_MAX)
  {
    hide SaturatingMul;
    NeverSaturates(v, I64_MIN);
  }

  lemma CappedFloor(n: nat, d: nat, cap: nat)
    requires d > 0
    ensures var q := Min(n / d, cap); q * d <= n && (q < cap ==> n < (q + 1) * d)
  {
    var q := Min(n / d, cap);
    FloorReaches(n, d, q);
    FloorReaches(n, d, q + 1);
  }
}
