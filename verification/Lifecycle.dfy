/**
 * Exactly when the remaining instructions on a subscription succeed in a reachable state: what the caller must get
 * right, and nothing else.
 */
module Lifecycle {
  import opened Integers
  import opened State
  import opened StreamMath
  import opened Handlers
  import opened Books
  import opened Invariants
  import opened Runs
  import opened Settlement
  import Keeper
  import Liveness

  /** An account of `owner` that can pay `amount`. */
  predicate CanPay(b: Bank, account: Key, owner: Key, amount: int) {
    account in b.accounts && b.accounts[account].owner == owner && b.accounts[account].amount >= amount
  }

  // ----- top_up -----

  predicate WellFormedTopUp(w: World, subscriber: Key, k: SubKey, ata: Key, amount: int, g: bool) {
    k in w.subs &&
    var s := w.subs[k];
    && Live(s.state) && subscriber == s.subscriber && amount > 0 && CanPay(w.bank, ata, subscriber, amount)
    && g == s.state.GracePeriod? && s.deposited + amount <= U64_MAX
  }

  lemma TopUpIffAt(w: World, now: I64, subscriber: Key, k: SubKey, ata: Key, amount: U64, g: bool, active: int)
    requires KeyOk(w, k) && Timely(w, k, now, active) && now >= 0 && Supply(w.bank) <= U64_MAX
    ensures Step(w, now, TopUpIx(subscriber, k, ata, amount, g)).Ok? <==> WellFormedTopUp(w, subscriber, k, ata, amount, g)
  {
    hide BookOf, Accrued, Supply;
    if k in w.bank.vaults && ata in w.bank.accounts { Liveness.RoomFor(w.bank, k, ata); }
  }

  /**
   * A top-up succeeds in a reachable state if and only if the record is live, its subscriber signs and can pay a
   * positive amount that the u64 total still holds, and the grace account is attached exactly in grace. Neither the
   * clock nor the length of a grace period can stand in the way of recovering from it.
   */
  lemma {:induction false} TopUpIff(r: Run, now: I64, subscriber: Key, k: SubKey, ata: Key, amount: U64, g: bool)
    requires Funded(r) && Forward(r) && Clock(r) <= now
    ensures Step(After(r), now, TopUpIx(subscriber, k, ata, amount, g)).Ok?
       <==> WellFormedTopUp(After(r), subscriber, k, ata, amount, g)
  {
    hide Step, Supply, KeyOk, Timely, WellFormedTopUp;
    Reached(r, k, now);
    TopUpIffAt(After(r), now, subscriber, k, ata, amount, g, ActiveBy(r, k, now));
  }

  // ----- pause and resume -----

  lemma PauseResumeIffAt(w: World, now: I64, merchant: Key, k: SubKey, active: int)
    requires KeyOk(w, k) && Timely(w, k, now, active) && now >= 0
    ensures Step(w, now, Pause(merchant, k)).Ok? <==> IsActive(w, k) && merchant == w.subs[k].merchant
    ensures Step(w, now, Resume(merchant, k)).Ok? <==> k in w.subs && w.subs[k].state.Paused? && merchant == w.subs[k].merchant
  {
    hide BookOf, Accrued;
  }

  /** Pause and resume succeed if and only if the record is Active or Paused, respectively, and its merchant signs. */
  lemma {:induction false} PauseResumeIff(r: Run, now: I64, merchant: Key, k: SubKey)
    requires Funded(r) && Forward(r) && Clock(r) <= now
    ensures Step(After(r), now, Pause(merchant, k)).Ok? <==> IsActive(After(r), k) && merchant == After(r).subs[k].merchant
    ensures Step(After(r), now, Resume(merchant, k)).Ok?
       <==> k in After(r).subs && After(r).subs[k].state.Paused? && merchant == After(r).subs[k].merchant
  {
    hide Step, Inv, KeyOk, Timely;
    Reached(r, k, now);
    PauseResumeIffAt(After(r), now, merchant, k, ActiveBy(r, k, now));
  }

  // ----- subscribe -----

  /** A plan that can be subscribed to now: at least one unit per second, at least one period, sums that fit. */
  predicate SubscribeGuardsHold(w: World, now: int, plan: PlanKey, periods: int) {
    plan in w.plans && periods >= 1 &&
    var p := w.plans[plan];
    0 < p.period <= p.price && p.price * periods <= U64_MAX && now + p.period <= I64_MAX
  }

  predicate WellFormedSubscribe(w: World, now: int, k: SubKey, ata: Key, periods: int) {
    && k !in w.subs && SubscribeGuardsHold(w, now, k.plan, periods)
    && CanPay(w.bank, ata, k.subscriber, w.plans[k.plan].price * periods)
  }

  lemma SubscribeIffAt(w: World, now: I64, k: SubKey, ata: Key, periods: U8)
    requires KeyOk(w, k) && (k.plan in w.plans ==> PlanOk(k.plan, w.plans[k.plan]))
    ensures Step(w, now, Subscribe(k.subscriber, k.plan, ata, periods)).Ok? <==> WellFormedSubscribe(w, now, k, ata, periods)
  {
    hide BookOf;
    assert SubKey(k.subscriber, k.plan) == k;
    if k.plan in w.plans {
      FloorReaches(w.plans[k.plan].price, w.plans[k.plan].period, 1);
    }
  }

  /**
   * A subscription starts if and only if its address is free, the plan exists with at least one unit per second, the
   * prefund of at least one period fits u64 and the first hint `now + period` fits i64, and the subscriber can pay
   * the prefund. A leftover vault or a full one never stands in the way.
   */
  lemma {:induction false} SubscribeIff(r: Run, now: I64, k: SubKey, ata: Key, periods: U8)
    requires Funded(r)
    ensures Step(After(r), now, Subscribe(k.subscriber, k.plan, ata, periods)).Ok?
       <==> WellFormedSubscribe(After(r), now, k, ata, periods)
  {
    hide Step, Supply, KeyOk, PlanOk, WellFormedSubscribe;
    RunInvariant(r);
    assert KeyOk(After(r), k);
    SubscribeIffAt(After(r), now, k, ata, periods);
  }

  // ----- open_session -----

  predicate WellFormedOpening(w: World, subscriber: Key, k: SubKey, id: U64, cap: int) {
    && IsActive(w, k) && subscriber == k.subscriber && SessionKey(k, id) !in w.sessions
    && (cap == 0 || cap <= w.subs[k].deposited - w.subs[k].withdrawn)
  }

  /**
   * A session opens if and only if its parent is Active, the parent's subscriber signs, the id is free, and the cap
   * is absent or within the remaining escrow, which never reads as negative.
   */
  lemma {:induction false} OpenSessionIff(r: Run, now: I64, subscriber: Key, k: SubKey, id: U64, facilitator: Key, cap: U64)
    requires Funded(r)
    ensures Step(After(r), now, OpenSession(subscriber, k, id, facilitator, cap)).Ok?
       <==> WellFormedOpening(After(r), subscriber, k, id, cap)
  {
    hide After, BookOf;
    Keeper.InvAt(r, k);
  }

  // ----- cleanup -----

  /** A record can be cleaned up by its subscriber if and only if it is a tombstone. */
  lemma {:induction false} CleanupIff(r: Run, now: I64, subscriber: Key, k: SubKey)
    requires Funded(r)
    ensures Step(After(r), now, Cleanup(subscriber, k)).Ok?
       <==> k in After(r).subs && After(r).subs[k].state.Cancelled? && subscriber == k.subscriber
  {
    hide After, BookOf;
    Keeper.InvAt(r, k);
  }
}
