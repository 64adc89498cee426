/** What an agreement binds, in every later state: the terms of a plan, and the delegation of a session. */
module Continuations {
  import opened Integers
  import opened State
  import opened Handlers
  import opened Books
  import opened Invariants
  import opened Runs
  import opened Custody
  import opened Effects
  import opened Sessions
  import Keeper

  /** `r` continues `base`. */
  ghost predicate Extends(base: Run, r: Run) {
    r == base || (r.Then? && Extends(base, r.earlier))
  }

  lemma ExtendsItself(r: Run)
    ensures Extends(r, r)
  {
  }

  /** A continuation goes on being one, whether or not one more instruction follows. */
  lemma ExtendsOn(base: Run, r: Run, r': Run)
    requires Extends(base, r) && (r' == r || (r'.Then? && r'.earlier == r))
    ensures Extends(base, r')
  {
  }

  // ----- plans -----

  /** Once created, a plan stays as it is. */
  lemma {:induction false} PlanStays(base: Run, r: Run, pk: PlanKey)
    requires pk in After(base).plans && Extends(base, r)
    ensures pk in After(r).plans && After(r).plans[pk] == After(base).plans[pk]
    decreases r
  {
    hide Step, Contained;
    if r != base {
      PlanStays(base, r.earlier, pk);
      if Step(After(r.earlier), r.now, r.ix).Ok? { PlanCustody(After(r.earlier), r.now, r.ix, pk); }
    }
  }

  /**
   * The terms a merchant created are the terms of every later subscription to the plan, in every continuation: the
   * exact price, period and merchant account of the instruction that created it.
   */
  lemma {:induction false} TermsBind(base: Run, now: I64, merchant: Key, planId: U64, price: U64, period: I64, ata: Key,
                                     r: Run, k: SubKey)
    requires var ix := CreatePlan(merchant, planId, price, period, ata);
      Funded(r) && Step(After(base), now, ix).Ok? && Extends(Then(base, now, ix), r)
    requires k.plan == PlanKey(merchant, planId) && k in After(r).subs
    ensures var s := After(r).subs[k];
      s.price == price && s.period == period && s.merchant == merchant && s.merchantAta == ata
  {
    hide Step, BookOf;
    CreatePlanExact(After(base), now, merchant, planId, price, period, ata);
    PlanStays(Then(base, now, CreatePlan(merchant, planId, price, period, ata)), r, k.plan);
    Keeper.InvAt(r, k);
  }

  // ----- sessions -----

  /** `r` continues `base`, and session `sk` was there all the time. */
  ghost predicate Throughout(base: Run, r: Run, sk: SessionKey) {
    sk in After(r).sessions && (r == base || (r.Then? && Throughout(base, r.earlier, sk)))
  }

  lemma {:induction false} AgreementStays(base: Run, r: Run, sk: SessionKey)
    requires Throughout(base, r, sk)
    ensures sk in After(base).sessions && Agreement(After(r).sessions[sk]) == Agreement(After(base).sessions[sk])
    ensures SettledBefore(r, sk) == SettledBefore(base, sk)
    ensures Funded(base) ==> Funded(r)
    decreases r
  {
    hide Step;
    if r != base {
      AgreementStays(base, r.earlier, sk);
      if Step(After(r.earlier), r.now, r.ix).Ok? { SessionCustody(After(r.earlier), r.now, r.ix, sk); }
    }
  }

  /**
   * Delegation: whatever happens after a session was opened, as long as it is not closed, it is the facilitator it
   * was opened with, and nobody else, who can settle through it, and all the tokens that ever left the escrow
   * through it stay within the cap it was opened with.
   */
  lemma {:induction false} DelegationBinds(base: Run, now: I64, subscriber: Key, k: SubKey, id: U64, facilitator: Key, cap: U64,
                                           r: Run, f: Key, later: I64, ata: Key, amount: U64)
    requires var ix := OpenSession(subscriber, k, id, facilitator, cap);
      Funded(base) && Step(After(base), now, ix).Ok? && Throughout(Then(base, now, ix), r, SessionKey(k, id))
    ensures var sk, p := SessionKey(k, id), After(r).sessions[SessionKey(k, id)];
      && p.facilitator == facilitator && p.reservationCap == cap && p.openedAt == now
      && (cap > 0 ==> SettledThrough(After(r).bank.journal, sk) - SettledThrough(After(base).bank.journal, sk) <= cap)
      && (Step(After(r), later, SettleUsage(f, k, id, ata, amount)).Ok? ==> f == facilitator)
  {
    hide Step;
    var start, sk := Then(base, now, OpenSession(subscriber, k, id, facilitator, cap)), SessionKey(k, id);
    OpenSessionExact(After(base), now, subscriber, k, id, facilitator, cap);
    AgreementStays(start, r, sk);
    SessionLedger(r, sk);
    if Step(After(r), later, SettleUsage(f, k, id, ata, amount)).Ok? {
      SettleUsageExact(After(r), later, f, k, id, ata, amount);
    }
  }
}
