/** What a keeper can rely on: when `charge` succeeds, what its hint means, and how long a prefund lasts. */
module Keeper {
  import opened Integers
  import opened Outcomes
  import opened State
  import opened StreamMath
  import opened Handlers
  import opened Books
  import opened Invariants
  import opened Runs
  import opened Settlement
  import Liveness

  // ----- the inverse of the stream formula -----

  /** The seconds covered by a settled amount never exceed the seconds that earned it. */
  lemma CoveredAtMost(elapsed: nat, price: nat, period: nat, deposited: nat)
    requires price > 0 && period > 0
    ensures CoveredSeconds(Unlocked(elapsed, price, period, deposited), price, period) <= elapsed
  {
    var u := Unlocked(elapsed, price, period, deposited);
    var q := CoveredSeconds(u, price, period);
    AccruedReaches(elapsed, price, period, u);
    FloorReaches(u * period, price, q);
    assert (elapsed + 1) * price == elapsed * price + price;
    if q > elapsed {
      MulMonotone(elapsed + 1, q, price);
    }
  }

  /** ... and, when the deposit did not cap the amount, fall short of them by at most one second. */
  lemma CoveredAtLeast(elapsed: nat, price: nat, period: nat)
    requires 0 < period <= price
    ensures CoveredSeconds(Accrued(elapsed, price, period), price, period) >= elapsed - 1
  {
    var u := Accrued(elapsed, price, period);
    AccruedReaches(elapsed, price, period, u + 1);
    assert (u + 1) * period == u * period + period;
    assert (elapsed - 1) * price == elapsed * price - price;
    if elapsed >= 1 {
      FloorReaches(u * period, price, elapsed - 1);
    }
  }

  // ----- charging -----

  /** What the next charge at `now` would pay. */
  function Claimable(s: Subscription, now: int): int
    requires s.period > 0 && s.streamStart <= now
  {
    Unlocked(now - s.streamStart, s.price, s.period, s.deposited) - s.withdrawn
  }

  /** The keeper's prediction: this charge would exhaust the stream. */
  predicate Exhausts(s: Subscription, now: int)
    requires s.period > 0 && s.streamStart <= now
  {
    Unlocked(now - s.streamStart, s.price, s.period, s.deposited) == s.deposited
  }

  /** The clock is far enough from the end of i64 for the hint and the grace deadline. */
  predicate ClockHasRoom(s: Subscription, now: int) {
    now + s.period <= I64_MAX && now + GRACE_DURATION <= I64_MAX
  }

  /** Which error a charge that pays `claimable` reports, in the order the program looks. */
  function Refusal(w: World, k: SubKey, plan: PlanKey, ata: Key, claimable: int, attached: bool): Error
    requires k in w.subs
  {
    if plan !in w.plans || ata !in w.bank.accounts then AccountNotInitialized
    else if plan != k.plan then ConstraintHasOne
    else if ata != w.subs[k].merchantAta then AtaMismatch
    else if claimable == 0 then InsufficientUnlockedFunds
    else if attached then UnexpectedGraceSatellite
    else MissingGraceSatellite
  }

  lemma ChargePasses(w: World, now: I64, k: SubKey, plan: PlanKey, ata: Key, g: bool, active: int)
    requires KeyOk(w, k) && Timely(w, k, now, active) && IsActive(w, k)
    requires plan == k.plan && ata == w.subs[k].merchantAta && ata in w.bank.accounts && Supply(w.bank) <= U64_MAX
    ensures ChargeGuards(w, now, k, plan, ata, g)
         == if Claimable(w.subs[k], now) > 0
            then Ok(Unlocked(active, w.subs[k].price, w.subs[k].period, w.subs[k].deposited))
            else Err(InsufficientUnlockedFunds)
    ensures Claimable(w.subs[k], now) > 0 ==>
      Withdraw(w.bank, Purpose.Charge, k, ata, Claimable(w.subs[k], now)).Ok?
  {
    hide BookOf, Accrued, Supply;
    Liveness.RoomFor(w.bank, k, ata);
  }

  /** The hint can be computed, and what it is. */
  lemma HintFits(s: Subscription, now: I64, active: int)
    requires 0 < s.period <= s.price && s.streamStart >= 0 && active >= 0 && now == s.streamStart + active
    requires ClockHasRoom(s, now)
    ensures var u := Unlocked(active, s.price, s.period, s.deposited);
      && NextChargeAt(s, u) == Ok(s.streamStart + CoveredSeconds(u, s.price, s.period) + s.period)
  {
    CoveredAtMost(active, s.price, s.period, s.deposited);
    hide CoveredSeconds, Unlocked;
  }

  /** The right plan and account, something to pay, and the satellite exactly as predicted. */
  predicate WellFormedCharge(w: World, now: int, k: SubKey, plan: PlanKey, ata: Key, g: bool)
    requires k in w.subs && w.subs[k].period > 0 && w.subs[k].streamStart <= now
  {
    && plan == k.plan && ata == w.subs[k].merchantAta && ata in w.bank.accounts
    && Claimable(w.subs[k], now) > 0 && g == Exhausts(w.subs[k], now)
  }

  lemma ChargeDecides(w: World, now: I64, k: SubKey, plan: PlanKey, ata: Key, g: bool, active: int)
    requires Inv(w) && KeyOk(w, k) && Timely(w, k, now, active) && IsActive(w, k) && ClockHasRoom(w.subs[k], now)
    ensures var outcome := Step(w, now, ChargeIx(k, plan, ata, g));
      && Claimable(w.subs[k], now) >= 0
      && (outcome.Ok? <==> WellFormedCharge(w, now, k, plan, ata, g))
      && (outcome.Err? ==> outcome.error == Refusal(w, k, plan, ata, Claimable(w.subs[k], now), g))
  {
    hide BookOf, Accrued, Supply, NextChargeAt, Withdraw;
    if plan == k.plan && ata == w.subs[k].merchantAta && ata in w.bank.accounts {
      ChargePasses(w, now, k, plan, ata, g, active);
      HintFits(w.subs[k], now, active);
    }
  }

  /**
   * Predict-and-attach is exact: in every reachable Active state a charge succeeds if and only if it names the
   * plan and the snapshotted merchant account, that account exists, something is claimable, and the grace account is attached
   * exactly when the prediction says the stream is exhausted; each way to fail is reported by its own error.
   */
  lemma {:induction false} PredictAndAttach(r: Run, now: I64, k: SubKey, plan: PlanKey, ata: Key, g: bool)
    requires Funded(r) && Forward(r) && Clock(r) <= now && IsActive(After(r), k) && ClockHasRoom(After(r).subs[k], now)
    ensures var w, s := After(r), After(r).subs[k];
      && s.period > 0 && s.streamStart <= now && Claimable(s, now) >= 0
      && var outcome := Step(w, now, ChargeIx(k, plan, ata, g));
      && (outcome.Ok? <==> WellFormedCharge(w, now, k, plan, ata, g))
      && (outcome.Err? ==> outcome.error == Refusal(w, k, plan, ata, Claimable(s, now), g))
  {
    hide Step, Inv, KeyOk, BookOf, Accrued;
    Reached(r, k, now);
    ChargeDecides(After(r), now, k, plan, ata, g, ActiveBy(r, k, now));
  }

  /**
   * The hint a successful charge writes: never later than one period from now, and, unless the deposit
   * capped the payment, at most one second earlier than that.
   */
  lemma {:induction false} HintBounds(r: Run, now: I64, k: SubKey, plan: PlanKey, ata: Key, g: bool)
    requires Funded(r) && Forward(r) && Clock(r) <= now && Step(After(r), now, ChargeIx(k, plan, ata, g)).Ok?
    ensures k in After(r).subs && k in Step(After(r), now, ChargeIx(k, plan, ata, g)).value.subs
    ensures var s, s' := After(r).subs[k], Step(After(r), now, ChargeIx(k, plan, ata, g)).value.subs[k];
      && 0 < s.period <= s.price && s.streamStart <= now
      && CoveredSeconds(s'.withdrawn, s.price, s.period) <= now - s.streamStart
      && s'.nextChargeAt <= now + s.period
      && (Accrued(now - s.streamStart, s.price, s.period) <= s.deposited ==> s'.nextChargeAt >= now + s.period - 1)
  {
    hide Step, Inv, KeyOk, Timely;
    Reached(r, k, now);
    HintBoundsAt(After(r), now, k, plan, ata, g, ActiveBy(r, k, now));
  }

  lemma HintBoundsAt(w: World, now: I64, k: SubKey, plan: PlanKey, ata: Key, g: bool, active: int)
    requires KeyOk(w, k) && Timely(w, k, now, active) && Step(w, now, ChargeIx(k, plan, ata, g)).Ok?
    ensures k in w.subs && k in Step(w, now, ChargeIx(k, plan, ata, g)).value.subs
    ensures var s, s' := w.subs[k], Step(w, now, ChargeIx(k, plan, ata, g)).value.subs[k];
      && 0 < s.period <= s.price && s.streamStart <= now
      && CoveredSeconds(s'.withdrawn, s.price, s.period) <= now - s.streamStart
      && s'.nextChargeAt <= now + s.period
      && (Accrued(now - s.streamStart, s.price, s.period) <= s.deposited ==> s'.nextChargeAt >= now + s.period - 1)
  {
    hide BookOf, Accrued, CoveredSeconds, Withdraw;
    var s := w.subs[k];
    CoveredAtMost(active, s.price, s.period, s.deposited);
    CoveredAtLeast(active, s.price, s.period);
  }

  // ----- how long a prefund lasts -----

  /** A deposit of `n` periods is exhausted at exactly `n * period` Active seconds, not one earlier. */
  lemma PrefundLife(elapsed: nat, price: nat, period: nat, n: nat)
    requires price > 0 && period > 0
    ensures Unlocked(elapsed, price, period, n * price) == n * price <==> elapsed >= n * period
  {
    AccruedReaches(elapsed, price, period, n * price);
    assert n * price * period == n * period * price;
    if elapsed >= n * period {
      MulMonotone(n * period, elapsed, price);
    } else {
      MulMonotone(elapsed + 1, n * period, price);
      assert (elapsed + 1) * price == elapsed * price + price;
    }
  }

  /** Until the deposit is exhausted every Active second unlocks at least one more base unit. */
  lemma EverySecondPays(elapsed: nat, price: nat, period: nat, deposited: nat)
    requires 0 < period <= price
    ensures Unlocked(elapsed + 1, price, period, deposited) >= Min(Unlocked(elapsed, price, period, deposited) + 1, deposited)
  {
    AccruedProgress(elapsed, price, period);
    hide Accrued;
  }

  /**
   * Exact life of a prefund, over every run: while nothing but whole periods has been deposited, the stream
   * is fully unlocked if and only if the subscription has been Active for that many periods.
   */
  lemma {:induction false} PrefundLasts(r: Run, k: SubKey, now: I64, n: nat)
    requires Funded(r) && Forward(r) && Clock(r) <= now && IsActive(After(r), k)
    requires After(r).subs[k].deposited == n * After(r).subs[k].price
    ensures var s := After(r).subs[k];
      && s.period > 0 && s.streamStart <= now
      && (Exhausts(s, now) <==> ActiveBy(r, k, now) >= n * s.period)
  {
    hide Step, Inv, BookOf, Accrued, SnapshotOk;
    Reached(r, k, now);
    var s := After(r).subs[k];
    PricePositive(After(r), k);
    PrefundLife(ActiveBy(r, k, now), s.price, s.period, n);
  }

  lemma PricePositive(w: World, k: SubKey)
    requires KeyOk(w, k) && k in w.subs
    ensures 0 < w.subs[k].period <= w.subs[k].price
  {
    hide BookOf;
  }

  /**
   * Each charge or settlement pays at least one unit, so a lifetime sees at most as many of them as units
   * deposited.
   */
  lemma {:induction false} PaymentsAreBounded(r: Run, k: SubKey)
    requires Funded(r) && k in After(r).subs
    ensures var b, s := BookOf(After(r).bank.journal, k), After(r).subs[k];
      b.payments <= b.charged + b.settled <= s.withdrawn <= s.deposited == b.deposits
  {
    hide Step, BookOf, Inv;
    InvAt(r, k);
  }

  lemma {:induction false} InvAt(r: Run, k: SubKey)
    requires Funded(r)
    ensures KeyOk(After(r), k)
  {
    hide Step, KeyOk;
    RunInvariant(r);
    assert KeyOk(After(r), k);
  }
}
