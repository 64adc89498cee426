/** Exactly when `cancel` succeeds, in every state a forward-running clock can reach. */
module Liveness {
  import opened Integers
  import opened Outcomes
  import opened State
  import opened StreamMath
  import opened Handlers
  import opened Books
  import opened Invariants
  import opened Runs
  import opened Settlement

  /** A vault's tokens always fit any token account: together they are part of the supply. */
  lemma RoomFor(b: Bank, k: SubKey, a: Key)
    requires k in b.vaults && a in b.accounts && Supply(b) <= U64_MAX
    ensures b.accounts[a].amount + b.vaults[k] <= U64_MAX
  {
    TotalBounds(Amounts(b.accounts), a);
    TotalBounds(Escrows(b.vaults), k);
    hide Total;
    assert Amounts(b.accounts)[a] == b.accounts[a].amount;
    assert Escrows(b.vaults)[k] == b.vaults[k];
  }

  /** Paying claim and refund out of a vault that covers them always goes through and leaves the difference. */
  lemma PayoutSucceeds(b: Bank, k: SubKey, mAta: Key, sAta: Key, claim: U64, refund: U64)
    requires k in b.vaults && mAta in b.accounts && sAta in b.accounts && Supply(b) <= U64_MAX
    requires b.vaults[k] >= claim + refund
    ensures WithdrawAny(b, Claim, k, mAta, claim).Ok?
    ensures var b1 := WithdrawAny(b, Claim, k, mAta, claim).value;
      && k in b1.vaults && sAta in b1.accounts
      && WithdrawAny(b1, Refund, k, sAta, refund).Ok?
      && var b2 := WithdrawAny(b1, Refund, k, sAta, refund).value;
         k in b2.vaults && b2.vaults[k] == b.vaults[k] - claim - refund && sAta in b2.accounts
         && b2.accounts[sAta].amount >= b.accounts[sAta].amount + refund
  {
    hide Supply, BookOf;
    RoomFor(b, k, mAta);
    WithdrawMoves(b, Claim, k, mAta, claim, k);
    RoomFor(WithdrawAny(b, Claim, k, mAta, claim).value, k, sAta);
  }

  /** What the caller of `cancel` must get right: the accounts, the signer, and the satellite of the current state. */
  predicate WellFormedCancel(w: World, k: SubKey, signer: Key, rentTo: Key, mAta: Key, sAta: Key, g: bool, p: bool) {
    k in w.subs &&
    var s := w.subs[k];
    && Live(s.state)
    && rentTo == s.subscriber
    && mAta == s.merchantAta && mAta in w.bank.accounts
    && sAta in w.bank.accounts && w.bank.accounts[sAta].owner == s.subscriber
    && (signer == s.subscriber || signer == s.merchant)
    && g == s.state.GracePeriod? && p == s.state.Paused?
  }

  /** Nobody has sent the vault tokens of his own. */
  predicate Undisturbed(w: World, k: SubKey) {
    k in w.subs && k in w.bank.vaults && w.bank.vaults[k] == w.subs[k].deposited - w.subs[k].withdrawn
  }

  lemma GuardsPass(w: World, now: I64, k: SubKey, signer: Key, rentTo: Key, mAta: Key, sAta: Key, g: bool,
                   p: bool, active: int)
    requires KeyOk(w, k) && Timely(w, k, now, active) && now >= 0
    requires WellFormedCancel(w, k, signer, rentTo, mAta, sAta, g, p)
    ensures CancelGuards(w, now, signer, k, rentTo, mAta, sAta, g, p).Ok?
  {
    hide BookOf, Accrued;
    var s := w.subs[k];
    if s.state.GracePeriod? {
      var end := if now <= w.graced[k].graceUntil then now else w.graced[k].graceUntil;
      UnlockedMonotone(active, end - s.streamStart, s.price, s.period, s.deposited, s.deposited);
    }
  }

  lemma GuardsNeed(w: World, now: I64, k: SubKey, signer: Key, rentTo: Key, mAta: Key, sAta: Key, g: bool, p: bool)
    requires KeyOk(w, k) && CancelGuards(w, now, signer, k, rentTo, mAta, sAta, g, p).Ok?
    ensures WellFormedCancel(w, k, signer, rentTo, mAta, sAta, g, p)
  {
    hide BookOf, Unlocked, Elapsed;
  }

  /** A well-formed cancellation gets as far as closing the vault, and closes it unless outsiders sent it tokens. */
  lemma CancelDecides(w: World, now: I64, k: SubKey, signer: Key, rentTo: Key, mAta: Key, sAta: Key, g: bool,
                      p: bool, active: int)
    requires KeyOk(w, k) && Timely(w, k, now, active) && now >= 0 && Supply(w.bank) <= U64_MAX
    requires WellFormedCancel(w, k, signer, rentTo, mAta, sAta, g, p)
    ensures w.subs[k].period > 0 && active >= 0 && k in w.bank.vaults
    ensures w.bank.vaults[k] >= w.subs[k].deposited - w.subs[k].withdrawn
    ensures !Undisturbed(w, k) ==> CancelStep(w, now, signer, k, rentTo, mAta, sAta, g, p) == Err(NonEmptyAccount)
    ensures Undisturbed(w, k) ==> CancelStep(w, now, signer, k, rentTo, mAta, sAta, g, p).Ok?
    ensures Undisturbed(w, k) ==>
      var w', s := CancelStep(w, now, signer, k, rentTo, mAta, sAta, g, p).value, w.subs[k];
      && k in w'.subs && w'.subs[k].state.Cancelled? && w'.subs[k].subscriber == s.subscriber
      && k !in w'.bank.vaults && k !in w'.graced && k !in w'.paused
      && w'.subs[k].withdrawn == Unlocked(active, s.price, s.period, s.deposited)
      && sAta in w'.bank.accounts
      && w'.bank.accounts[sAta].amount >= w.bank.accounts[sAta].amount + (s.deposited - w'.subs[k].withdrawn)
  {
    hide BookOf, Supply, Accrued, WithdrawAny;
    GuardsPass(w, now, k, signer, rentTo, mAta, sAta, g, p, active);
    CancelUnlocks(w, now, signer, k, rentTo, mAta, sAta, g, p, active);
    var unlocked := CancelGuards(w, now, signer, k, rentTo, mAta, sAta, g, p).value;
    PayoutSucceeds(w.bank, k, mAta, sAta, unlocked - w.subs[k].withdrawn, w.subs[k].deposited - unlocked);
  }

  /**
   * When funds come free: in every reachable state, whatever wallets did with their token accounts, `cancel` goes
   * through exactly when the subscription is still live, the caller passes the right and existing accounts, an
   * entitled signer and the satellite of the current state, and nobody has sent the vault tokens of his own. The
   * clock, the arithmetic and both transfers can never be the obstacle; a disturbed vault is the only thing that
   * can stop a well-formed cancellation, and only by keeping the vault from being closed.
   */
  lemma {:induction false} NoStuckFunds(r: Run, now: I64, k: SubKey, signer: Key, rentTo: Key, mAta: Key,
                                        sAta: Key, g: bool, p: bool)
    requires Funded(r) && Forward(r) && Clock(r) <= now
    ensures var outcome := Step(After(r), now, Cancel(signer, k, rentTo, mAta, sAta, g, p));
      && (outcome.Ok? <==> WellFormedCancel(After(r), k, signer, rentTo, mAta, sAta, g, p) && Undisturbed(After(r), k))
      && (WellFormedCancel(After(r), k, signer, rentTo, mAta, sAta, g, p) && outcome.Err? ==> outcome.error == NonEmptyAccount)
  {
    hide Step, Supply, KeyOk, Timely, WellFormedCancel, Undisturbed;
    Reached(r, k, now);
    CancelIff(After(r), now, k, signer, rentTo, mAta, sAta, g, p, ActiveBy(r, k, now));
  }

  lemma CancelIff(w: World, now: I64, k: SubKey, signer: Key, rentTo: Key, mAta: Key, sAta: Key, g: bool,
                  p: bool, active: int)
    requires KeyOk(w, k) && Timely(w, k, now, active) && now >= 0 && Supply(w.bank) <= U64_MAX
    ensures var outcome := Step(w, now, Cancel(signer, k, rentTo, mAta, sAta, g, p));
      && (outcome.Ok? <==> WellFormedCancel(w, k, signer, rentTo, mAta, sAta, g, p) && Undisturbed(w, k))
      && (WellFormedCancel(w, k, signer, rentTo, mAta, sAta, g, p) && outcome.Err? ==> outcome.error == NonEmptyAccount)
  {
    hide Supply, BookOf, CancelGuards, WithdrawAny, Tombstone, Timely, Undisturbed;
    if WellFormedCancel(w, k, signer, rentTo, mAta, sAta, g, p) {
      CancelDecides(w, now, k, signer, rentTo, mAta, sAta, g, p, active);
    } else if CancelStep(w, now, signer, k, rentTo, mAta, sAta, g, p).Ok? {
      GuardsNeed(w, now, k, signer, rentTo, mAta, sAta, g, p);
    }
  }

  /** The vault of a live subscription is undisturbed exactly while outsiders have sent it nothing this lifetime. */
  lemma {:induction false} DisturbedByDonation(r: Run, k: SubKey)
    requires Funded(r) && k in After(r).subs && Live(After(r).subs[k].state)
    ensures Undisturbed(After(r), k) <==> BookOf(After(r).bank.journal, k).donated == 0
  {
    hide Step, BookOf;
    EscrowIsExact(r, k);
  }
}
