/**
 * What each successful instruction does, exactly and to everything: which tokens move between which accounts, every
 * field of every record that changes, and that nothing else does. Stated for any accounts and any clock, with the
 * amounts and formulas written out.
 */
module Effects {
  import opened Integers
  import opened State
  import opened StreamMath
  import opened Handlers
  import opened Books
  import opened Invariants

  /** `amount` moved from the vault of `k` to `account`, was journalled so, and no other balance changed. */
  predicate Paid(b: Bank, b': Bank, purpose: Purpose, k: SubKey, account: Key, amount: U64) {
    && account in b.accounts && account in b'.accounts && k in b.vaults && k in b'.vaults
    && b'.accounts == b.accounts[account := b'.accounts[account]]
    && b'.accounts[account].owner == b.accounts[account].owner
    && b'.accounts[account].amount == b.accounts[account].amount + amount
    && b'.vaults == b.vaults[k := b'.vaults[k]]
    && b'.vaults[k] == b.vaults[k] - amount
    && b'.journal == Logged(b.journal, Escrow(purpose, k, account, b.accounts[account].owner, amount))
  }

  /** `amount` moved from `account` to the vault of `k`, which held `before`, and was journalled so. */
  predicate Collected(b: Bank, b': Bank, purpose: Purpose, k: SubKey, before: int, account: Key, amount: U64) {
    && account in b.accounts && account in b'.accounts && k in b'.vaults
    && b'.accounts == b.accounts[account := b'.accounts[account]]
    && b'.accounts[account].owner == b.accounts[account].owner
    && b'.accounts[account].amount == b.accounts[account].amount - amount
    && b'.vaults == b.vaults[k := b'.vaults[k]]
    && b'.vaults[k] == before + amount
    && b'.journal == Logged(b.journal, Escrow(purpose, k, account, b.accounts[account].owner, amount))
  }

  lemma WithdrawPays(b: Bank, purpose: Purpose, k: SubKey, to: Key, amount: U64)
    requires k in b.vaults && to in b.accounts && Withdraw(b, purpose, k, to, amount).Ok?
    ensures Paid(b, Withdraw(b, purpose, k, to, amount).value, purpose, k, to, amount)
  {
  }

  lemma DepositCollects(b: Bank, purpose: Purpose, k: SubKey, from: Key, amount: U64)
    requires k in b.vaults && from in b.accounts && Deposit(b, purpose, k, from, amount).Ok?
    ensures Collected(b, Deposit(b, purpose, k, from, amount).value, purpose, k, b.vaults[k], from, amount)
  {
  }

  // ----- plans -----

  /**
   * A plan is created if and only if its id is free, the account exists and is the merchant's, and price and period are
   * positive; it holds exactly the given price and period and routes to exactly the given account.
   */
  lemma CreatePlanExact(w: World, now: I64, merchant: Key, planId: U64, price: U64, period: I64, ata: Key)
    ensures var outcome := Step(w, now, CreatePlan(merchant, planId, price, period, ata));
      && (outcome.Ok? <==>
            && PlanKey(merchant, planId) !in w.plans && price > 0 && period > 0
            && ata in w.bank.accounts && w.bank.accounts[ata].owner == merchant)
      && (outcome.Ok? ==>
            outcome.value == w.(plans := w.plans[PlanKey(merchant, planId) :=
              Plan(merchant, planId, price, period, USDC_MINT, ata)]))
  {
  }

  // ----- subscriptions -----

  /** A subscription begins with the plan's terms and `price * periods` from the subscriber's account in a new vault. */
  lemma SubscribeExact(w: World, now: I64, subscriber: Key, plan: PlanKey, ata: Key, periods: U8)
    requires Step(w, now, Subscribe(subscriber, plan, ata, periods)).Ok?
    ensures var w', k := Step(w, now, Subscribe(subscriber, plan, ata, periods)).value, SubKey(subscriber, plan);
      && plan in w.plans && k !in w.subs && k !in w.bank.vaults && k in w'.subs
      && var p, s := w.plans[plan], w'.subs[k];
      && 0 < p.period && 0 <= p.price * periods <= U64_MAX
      && s.subscriber == subscriber && s.plan == plan
      && s.price == p.price && s.period == p.period && s.tokenMint == p.tokenMint
      && s.merchant == p.merchant && s.merchantAta == p.merchantAta
      && s.state == Active && s.createdAt == now && s.streamStart == now && s.lastChargeAt == 0
      && s.nextChargeAt == now + p.period && s.ratePerSecond == p.price / p.period
      && s.deposited == p.price * periods && s.withdrawn == 0
      && Collected(w.bank, w'.bank, Prefund, k, 0, ata, p.price * periods)
      && w' == w.(subs := w.subs[k := s], bank := w'.bank)
  {
    hide Deposit;
    var k := SubKey(subscriber, plan);
    var b := w.bank.(vaults := w.bank.vaults[k := 0]);
    DepositCollects(b, Prefund, k, ata, SubscribeGuards(w, subscriber, plan, ata, periods).value);
  }

  /** What the stream of `s` has unlocked at `t`. */
  function UnlockedAt(s: Subscription, t: int): int
    requires s.period > 0
  {
    var accrued := (t - s.streamStart) * s.price / s.period;
    if accrued <= s.deposited then accrued else s.deposited
  }

  /**
   * A charge pays the merchant's account exactly what is unlocked above the withdrawals, records it with the time and
   * the exact hint, and turns a used-up stream over to a grace period of 604,800 seconds.
   */
  lemma ChargeExact(w: World, now: I64, k: SubKey, plan: PlanKey, ata: Key, g: bool)
    requires Step(w, now, ChargeIx(k, plan, ata, g)).Ok?
    ensures var w' := Step(w, now, ChargeIx(k, plan, ata, g)).value;
      && k in w.subs && k in w'.subs
      && var s, s' := w.subs[k], w'.subs[k];
      && s.state == Active && s.period > 0 && s.price > 0 && s.streamStart <= now
      && s'.withdrawn == UnlockedAt(s, now) > s.withdrawn
      && s'.lastChargeAt == now && s'.nextChargeAt == s.streamStart + s'.withdrawn * s.period / s.price + s.period
      && s'.state == (if s'.withdrawn == s.deposited then GracePeriod else Active)
      && s' == s.(withdrawn := s'.withdrawn, lastChargeAt := now, nextChargeAt := s'.nextChargeAt, state := s'.state)
      && Paid(w.bank, w'.bank, Purpose.Charge, k, ata, s'.withdrawn - s.withdrawn)
      && w' == w.(subs := w.subs[k := s'], bank := w'.bank, graced := w'.graced)
      && (if s'.withdrawn == s.deposited
          then now + 604_800 <= I64_MAX && w'.graced == w.graced[k := GracedSubscription(k, now, now + 604_800)]
          else w'.graced == w.graced)
  {
    hide Withdraw, ChargeGuards, UnlockedAt, Paid;
    ChargeEarns(w, now, k, plan, ata, g);
    var u := ChargeGuards(w, now, k, plan, ata, g).value;
    WithdrawPays(w.bank, Purpose.Charge, k, ata, u - w.subs[k].withdrawn);
  }

  lemma ChargeEarns(w: World, now: I64, k: SubKey, plan: PlanKey, ata: Key, g: bool)
    requires ChargeGuards(w, now, k, plan, ata, g).Ok?
    ensures k in w.subs && k in w.bank.vaults && ata in w.bank.accounts
    ensures var s := w.subs[k]; s.state == Active && s.period > 0 && s.streamStart <= now
    ensures ChargeGuards(w, now, k, plan, ata, g).value == UnlockedAt(w.subs[k], now) > w.subs[k].withdrawn
  {
  }

  /**
   * A top-up takes exactly `amount` from the subscriber's account and adds it to vault and deposit. Outside grace
   * nothing else changes; in grace the anchor moves by the time since grace was entered and the stream is Active again.
   */
  lemma TopUpExact(w: World, now: I64, subscriber: Key, k: SubKey, ata: Key, amount: U64, g: bool)
    requires Step(w, now, TopUpIx(subscriber, k, ata, amount, g)).Ok?
    ensures var w' := Step(w, now, TopUpIx(subscriber, k, ata, amount, g)).value;
      && k in w.subs && k in w'.subs && k in w.bank.vaults
      && var s, s' := w.subs[k], w'.subs[k];
      && s'.deposited == s.deposited + amount
      && Collected(w.bank, w'.bank, TopUp, k, w.bank.vaults[k], ata, amount)
      && (if s.state.GracePeriod? then
            && k in w.graced && s'.state == Active
            && s'.streamStart == s.streamStart + (now - w.graced[k].enteredGraceAt)
            && s' == s.(deposited := s'.deposited, streamStart := s'.streamStart, state := Active)
          else s' == s.(deposited := s'.deposited))
      && w' == w.(subs := w.subs[k := s'], bank := w'.bank, graced := if g then w.graced - {k} else w.graced)
  {
    hide Deposit;
    DepositCollects(w.bank, TopUp, k, ata, amount);
  }

  /** Pausing flips the state and dates a satellite; resuming flips it back, moves the anchor by the pause and removes it. */
  lemma PauseResumeExact(w: World, now: I64, merchant: Key, k: SubKey)
    ensures Step(w, now, Pause(merchant, k)).Ok? ==>
      && k in w.subs && w.subs[k].state == Active
      && Step(w, now, Pause(merchant, k)).value
         == w.(subs := w.subs[k := w.subs[k].(state := Paused)], paused := w.paused[k := PausedSubscription(k, now)])
    ensures Step(w, now, Resume(merchant, k)).Ok? ==>
      var w' := Step(w, now, Resume(merchant, k)).value;
      && k in w.subs && k in w.paused && k in w'.subs && w.subs[k].state == Paused
      && var s, s' := w.subs[k], w'.subs[k];
      && s'.streamStart == s.streamStart + (now - w.paused[k].pausedAt)
      && s' == s.(streamStart := s'.streamStart, state := Active)
      && w' == w.(subs := w.subs[k := s'], paused := w.paused - {k})
  {
    hide Elapsed;
  }

  /** The instant up to which a cancellation lets the stream run. */
  function EndOfStream(w: World, k: SubKey, now: int): int
    requires k in w.subs
    requires (w.subs[k].state.Paused? ==> k in w.paused) && (w.subs[k].state.GracePeriod? ==> k in w.graced)
  {
    match w.subs[k].state
    case Paused => w.paused[k].pausedAt
    case GracePeriod => if now < w.graced[k].graceUntil then now else w.graced[k].graceUntil
    case _ => now
  }

  /** A transfer that is only made, and only journalled, when there is something to pay. */
  function PaidOut(j: Journal, purpose: Purpose, k: SubKey, account: Key, owner: Key, amount: U64): Journal {
    if amount == 0 then j else Logged(j, Escrow(purpose, k, account, owner, amount))
  }

  /** The merchant's account gained `claim`, the subscriber's `refund`, and no other account changed. */
  predicate Split(b: Bank, b': Bank, k: SubKey, mAta: Key, sAta: Key, claim: U64, refund: U64) {
    && mAta in b.accounts && sAta in b.accounts && k in b.vaults
    && b.vaults[k] == claim + refund && b'.vaults == b.vaults - {k}
    && b'.accounts.Keys == b.accounts.Keys
    && (forall a :: a in b.accounts ==>
          && b'.accounts[a].owner == b.accounts[a].owner
          && b'.accounts[a].amount
             == b.accounts[a].amount + (if a == mAta then claim else 0) + (if a == sAta then refund else 0))
    && b'.journal == PaidOut(PaidOut(b.journal, Claim, k, mAta, b.accounts[mAta].owner, claim),
                             Refund, k, sAta, b.accounts[sAta].owner, refund)
  }

  lemma PayoutSplits(b: Bank, k: SubKey, mAta: Key, sAta: Key, claim: U64, refund: U64)
    requires k in b.vaults && mAta in b.accounts && sAta in b.accounts && WithdrawAny(b, Claim, k, mAta, claim).Ok?
    requires var b1 := WithdrawAny(b, Claim, k, mAta, claim).value;
      && k in b1.vaults && sAta in b1.accounts && WithdrawAny(b1, Refund, k, sAta, refund).Ok?
      && var b2 := WithdrawAny(b1, Refund, k, sAta, refund).value; k in b2.vaults && b2.vaults[k] == 0
    ensures var b2 := WithdrawAny(WithdrawAny(b, Claim, k, mAta, claim).value, Refund, k, sAta, refund).value;
      Split(b, b2.(vaults := b2.vaults - {k}), k, mAta, sAta, claim, refund)
  {
  }

  /**
   * A cancellation splits the vault exactly: what the stream unlocked by its end and was not yet withdrawn goes to the
   * merchant's account, what it had not unlocked to the subscriber's; the vault and the attached satellites are
   * gone, and the record stays as a tombstone.
   */
  lemma CancelExact(w: World, now: I64, signer: Key, k: SubKey, rentTo: Key, mAta: Key, sAta: Key, g: bool, p: bool)
    requires Step(w, now, Cancel(signer, k, rentTo, mAta, sAta, g, p)).Ok?
    ensures var w' := Step(w, now, Cancel(signer, k, rentTo, mAta, sAta, g, p)).value;
      && k in w.subs && k in w'.subs && Live(w.subs[k].state)
      && (w.subs[k].state.Paused? ==> k in w.paused) && (w.subs[k].state.GracePeriod? ==> k in w.graced)
      && var s, s' := w.subs[k], w'.subs[k];
      && s.period > 0
      && s'.withdrawn == UnlockedAt(s, EndOfStream(w, k, now))
      && s.withdrawn <= s'.withdrawn <= s.deposited
      && s' == s.(state := Cancelled, lastChargeAt := now, withdrawn := s'.withdrawn)
      && Split(w.bank, w'.bank, k, mAta, sAta, s'.withdrawn - s.withdrawn, s.deposited - s'.withdrawn)
      && w' == w.(subs := w.subs[k := s'], bank := w'.bank,
                  graced := if g then w.graced - {k} else w.graced, paused := if p then w.paused - {k} else w.paused)
  {
    hide WithdrawAny, CancelGuards, Split, UnlockedAt, EndOfStream, Supply, SameEscrow;
    CancelEarns(w, now, signer, k, rentTo, mAta, sAta, g, p);
    var unlocked := CancelGuards(w, now, signer, k, rentTo, mAta, sAta, g, p).value;
    var claim, refund := unlocked - w.subs[k].withdrawn, w.subs[k].deposited - unlocked;
    WithdrawMoves(w.bank, Claim, k, mAta, claim, k);
    var b1 := WithdrawAny(w.bank, Claim, k, mAta, claim).value;
    WithdrawMoves(b1, Refund, k, sAta, refund, k);
    PayoutSplits(w.bank, k, mAta, sAta, claim, refund);
  }

  lemma CancelEarns(w: World, now: I64, signer: Key, k: SubKey, rentTo: Key, mAta: Key, sAta: Key, g: bool, p: bool)
    requires CancelGuards(w, now, signer, k, rentTo, mAta, sAta, g, p).Ok?
    ensures k in w.subs && Live(w.subs[k].state) && w.subs[k].period > 0
    ensures k in w.bank.vaults && mAta in w.bank.accounts && sAta in w.bank.accounts
    ensures (w.subs[k].state.Paused? ==> k in w.paused) && (w.subs[k].state.GracePeriod? ==> k in w.graced)
    ensures var unlocked := CancelGuards(w, now, signer, k, rentTo, mAta, sAta, g, p).value;
      unlocked == UnlockedAt(w.subs[k], EndOfStream(w, k, now)) && w.subs[k].withdrawn <= unlocked <= w.subs[k].deposited
  {
  }

  /** Cleaning up removes the record of a tombstone and nothing else. */
  lemma CleanupExact(w: World, now: I64, subscriber: Key, k: SubKey)
    requires Step(w, now, Cleanup(subscriber, k)).Ok?
    ensures Step(w, now, Cleanup(subscriber, k)).value == w.(subs := w.subs - {k})
  {
  }

  // ----- sessions -----

  /** A session stores exactly the facilitator and cap it was opened with, and its parent's routing. */
  lemma OpenSessionExact(w: World, now: I64, subscriber: Key, k: SubKey, id: U64, facilitator: Key, cap: U64)
    requires Step(w, now, OpenSession(subscriber, k, id, facilitator, cap)).Ok?
    ensures k in w.subs && SessionKey(k, id) !in w.sessions
    ensures Step(w, now, OpenSession(subscriber, k, id, facilitator, cap)).value
         == w.(sessions := w.sessions[SessionKey(k, id) :=
                 PaySession(k, w.subs[k].merchant, w.subs[k].merchantAta, facilitator, id, now, 0, 0, cap, Open)])
  {
  }

  /** Closing removes the session and nothing else. */
  lemma CloseSessionExact(w: World, now: I64, subscriber: Key, k: SubKey, id: U64)
    requires Step(w, now, CloseSession(subscriber, k, id)).Ok?
    ensures SessionKey(k, id) in w.sessions
    ensures Step(w, now, CloseSession(subscriber, k, id)).value == w.(sessions := w.sessions - {SessionKey(k, id)})
  {
  }

  /** A settlement pays exactly `amount`: out of the vault, into the merchant's account, and onto both ledgers. */
  lemma SettleUsageExact(w: World, now: I64, facilitator: Key, k: SubKey, id: U64, ata: Key, amount: U64)
    requires Step(w, now, SettleUsage(facilitator, k, id, ata, amount)).Ok?
    ensures var w', sk := Step(w, now, SettleUsage(facilitator, k, id, ata, amount)).value, SessionKey(k, id);
      && k in w.subs && k in w'.subs && sk in w.sessions && sk in w'.sessions
      && var s, s', p, p' := w.subs[k], w'.subs[k], w.sessions[sk], w'.sessions[sk];
      && amount > 0 && facilitator == p.facilitator && ata == p.merchantAta
      && s'.withdrawn == s.withdrawn + amount && s' == s.(withdrawn := s'.withdrawn)
      && p'.usage == p.usage + amount && p' == p.(usage := p'.usage, lastSettleAt := now, state := Open)
      && Paid(w.bank, w'.bank, Settle(id), k, ata, amount)
      && w' == w.(subs := w.subs[k := s'], sessions := w.sessions[sk := p'], bank := w'.bank)
  {
    hide Withdraw, Unlocked;
    WithdrawPays(w.bank, Settle(id), k, ata, amount);
  }

  // ----- wallets -----

  /** A transfer between token accounts moves exactly `amount` from one to the other; between one and itself, nothing. */
  lemma TokenTransferExact(w: World, now: I64, owner: Key, from: Key, to: Key, amount: U64)
    requires Step(w, now, TokenTransfer(owner, from, to, amount)).Ok?
    ensures var w' := Step(w, now, TokenTransfer(owner, from, to, amount)).value;
      && w' == w.(bank := w.bank.(accounts := w'.bank.accounts, journal := Logged(w.bank.journal, Direct(from, to, amount))))
      && w'.bank.accounts.Keys == w.bank.accounts.Keys && from in w.bank.accounts && to in w.bank.accounts
      && forall a :: a in w.bank.accounts ==>
           && w'.bank.accounts[a].owner == w.bank.accounts[a].owner
           && w'.bank.accounts[a].amount
              == w.bank.accounts[a].amount - (if a == from then amount else 0) + (if a == to then amount else 0)
  {
  }

  /** Tokens sent straight to a vault arrive there; opening, closing and handing over an account touch that account only. */
  lemma WalletExact(w: World, now: I64, owner: Key, a: Key, k: SubKey, amount: U64, other: Key)
    ensures Step(w, now, Donate(owner, a, k, amount)).Ok? ==>
      var w' := Step(w, now, Donate(owner, a, k, amount)).value;
      k in w.bank.vaults && Collected(w.bank, w'.bank, Donation, k, w.bank.vaults[k], a, amount) && w' == w.(bank := w'.bank)
    ensures Step(w, now, OpenTokenAccount(a, owner)).Ok? ==>
      a !in w.bank.accounts && Step(w, now, OpenTokenAccount(a, owner)).value
        == w.(bank := w.bank.(accounts := w.bank.accounts[a := TokenAccount(owner, 0)]))
    ensures Step(w, now, CloseTokenAccount(owner, a)).Ok? ==>
      a in w.bank.accounts && w.bank.accounts[a] == TokenAccount(owner, 0) && Step(w, now, CloseTokenAccount(owner, a)).value
        == w.(bank := w.bank.(accounts := w.bank.accounts - {a}))
    ensures Step(w, now, AssignTokenAccount(owner, a, other)).Ok? ==>
      a in w.bank.accounts && w.bank.accounts[a].owner == owner && Step(w, now, AssignTokenAccount(owner, a, other)).value
        == w.(bank := w.bank.(accounts := w.bank.accounts[a := TokenAccount(other, w.bank.accounts[a].amount)]))
  {
    hide Deposit;
    if Step(w, now, Donate(owner, a, k, amount)).Ok? { DepositCollects(w.bank, Donation, k, a, amount); }
  }
}
