/** Whole histories: any instructions, in any order, at any clock readings, from any funded cluster. */
module Runs {
  import opened Integers
  import opened State
  import opened StreamMath
  import opened Handlers
  import opened Books
  import opened Invariants

  /** A history of submitted instructions, the latest on top; the ones that fail change nothing. */
  datatype Run = Genesis(accounts: map<Key, TokenAccount>) | Then(earlier: Run, now: I64, ix: Instruction)

  function After(r: Run): World {
    match r
    case Genesis(accounts) => Fresh(accounts)
    case Then(earlier, now, ix) =>
      match Step(After(earlier), now, ix)
      case Ok(w) => w
      case Err(_) => After(earlier)
  }

  function Origin(r: Run): map<Key, TokenAccount> {
    match r
    case Genesis(accounts) => accounts
    case Then(earlier, _, _) => Origin(earlier)
  }

  /** The last clock reading. */
  function Clock(r: Run): I64 {
    match r
    case Genesis(_) => 0
    case Then(_, now, _) => now
  }

  /** The clock starts at zero or later and never runs backwards. */
  predicate Forward(r: Run) {
    match r
    case Genesis(_) => true
    case Then(earlier, now, _) => Forward(earlier) && Clock(earlier) <= now
  }

  /** All the tokens together fit the mint's u64 supply. */
  ghost predicate Funded(r: Run) {
    Total(Amounts(Origin(r))) <= U64_MAX
  }

  /** The invariant holds after every run, and the token supply is the one the run started with. */
  lemma {:induction false} RunInvariant(r: Run)
    requires Funded(r)
    ensures Inv(After(r))
    ensures Supply(After(r).bank) == Total(Amounts(Origin(r)))
  {
    hide Inv, Step, Total, KeyOk;
    match r
    case Genesis(accounts) =>
      FreshOk(accounts);
      FreshSupply(accounts);
    case Then(earlier, now, ix) =>
      RunInvariant(earlier);
      if Step(After(earlier), now, ix).Ok? {
        Preservation(After(earlier), now, ix);
        StepContained(After(earlier), now, ix, SubKey(0, PlanKey(0, 0)));
      }
  }

  lemma FreshSupply(accounts: map<Key, TokenAccount>)
    ensures Supply(Fresh(accounts).bank) == Total(Amounts(accounts))
  {
    assert Escrows(map[]) == map[];
  }

  /**
   * Escrow conservation, for any clock: a vault exists exactly while its subscription is live and holds exactly
   * what was not withdrawn, and what outsiders sent to it.
   */
  lemma {:induction false} EscrowIsExact(r: Run, k: SubKey)
    requires Funded(r)
    ensures var w := After(r);
      && (k in w.bank.vaults <==> k in w.subs && Live(w.subs[k].state))
      && (k in w.bank.vaults ==>
            w.bank.vaults[k] == w.subs[k].deposited - w.subs[k].withdrawn + BookOf(w.bank.journal, k).donated)
  {
    hide Step, BookOf, Supply;
    RunInvariant(r);
    assert KeyOk(After(r), k);
  }

  /**
   * Satellites, for any clock and across cleanup and re-subscription: each exists exactly in its own state, a
   * grace period means nothing is left in escrow, and no instruction ever leaves a record Exhausted.
   */
  lemma {:induction false} SatellitesMatchState(r: Run, k: SubKey)
    requires Funded(r)
    ensures var w := After(r);
      && (k in w.paused <==> k in w.subs && w.subs[k].state.Paused?)
      && (k in w.graced <==> k in w.subs && w.subs[k].state.GracePeriod?)
      && (k in w.subs && w.subs[k].state.GracePeriod? ==> w.subs[k].withdrawn == w.subs[k].deposited)
      && (k in w.subs ==> !w.subs[k].state.Exhausted?)
  {
    hide Step, BookOf, Supply;
    RunInvariant(r);
    assert KeyOk(After(r), k);
  }

  /** The balance of a token account, zero while it does not exist. */
  function Held(accounts: map<Key, TokenAccount>, a: Key): nat {
    if a in accounts then accounts[a].amount else 0
  }

  /** Every token account holds what it began with plus what the journal credits and debits it, after any run. */
  lemma {:induction false} JournalExplainsBalances(r: Run, a: Key)
    ensures Held(After(r).bank.accounts, a) == Balance(Held(Origin(r), a), After(r).bank.journal, a)
  {
    match r
    case Genesis(_) =>
    case Then(earlier, now, ix) =>
      JournalExplainsBalances(earlier, a);
      if Step(After(earlier), now, ix).Ok? {
        StepExplains(After(earlier), now, ix, a, Held(Origin(r), a));
      }
  }

  /** The journal accounts for the balance of `a`. */
  predicate Explained(b: Bank, a: Key, initial: int) {
    Held(b.accounts, a) == Balance(initial, b.journal, a)
  }

  lemma DepositExplains(b: Bank, purpose: Purpose, k: SubKey, from: Key, amount: U64, a: Key, initial: int)
    requires k in b.vaults && from in b.accounts && Deposit(b, purpose, k, from, amount).Ok?
    requires purpose.Incoming() && Explained(b, a, initial)
    ensures Explained(Deposit(b, purpose, k, from, amount).value, a, initial)
  {
  }

  lemma WithdrawExplains(b: Bank, purpose: Purpose, k: SubKey, to: Key, amount: U64, a: Key, initial: int)
    requires k in b.vaults && to in b.accounts && WithdrawAny(b, purpose, k, to, amount).Ok?
    requires !purpose.Incoming() && Explained(b, a, initial)
    ensures Explained(WithdrawAny(b, purpose, k, to, amount).value, a, initial)
  {
  }

  lemma CancelExplains(w: World, now: I64, signer: Key, k: SubKey, rentTo: Key, mAta: Key, sAta: Key, g: bool,
                       p: bool, a: Key, initial: int)
    requires CancelStep(w, now, signer, k, rentTo, mAta, sAta, g, p).Ok? && Explained(w.bank, a, initial)
    ensures Explained(CancelStep(w, now, signer, k, rentTo, mAta, sAta, g, p).value.bank, a, initial)
  {
    hide WithdrawAny, Balance, Accrued;
    var unlocked := CancelGuards(w, now, signer, k, rentTo, mAta, sAta, g, p).value;
    var claim, refund := unlocked - w.subs[k].withdrawn, w.subs[k].deposited - unlocked;
    WithdrawMoves(w.bank, Claim, k, mAta, claim, k);
    WithdrawExplains(w.bank, Claim, k, mAta, claim, a, initial);
    WithdrawExplains(WithdrawAny(w.bank, Claim, k, mAta, claim).value, Refund, k, sAta, refund, a, initial);
  }

  lemma SubscribeExplains(w: World, now: I64, s: Key, plan: PlanKey, ata: Key, n: U8, a: Key, initial: int)
    requires SubscribeStep(w, now, s, plan, ata, n).Ok? && Explained(w.bank, a, initial)
    ensures Explained(SubscribeStep(w, now, s, plan, ata, n).value.bank, a, initial)
  {
    hide Deposit, Balance;
    var k := SubKey(s, plan);
    var deposited := SubscribeGuards(w, s, plan, ata, n).value;
    DepositExplains(w.bank.(vaults := w.bank.vaults[k := 0]), Prefund, k, ata, deposited, a, initial);
  }

  lemma PaymentExplains(w: World, now: I64, ix: Instruction, a: Key, initial: int)
    requires Step(w, now, ix).Ok? && Explained(w.bank, a, initial)
    requires ix.ChargeIx? || ix.SettleUsage? || ix.TopUpIx? || ix.Donate?
    ensures Explained(Step(w, now, ix).value.bank, a, initial)
  {
    hide Balance, Deposit, Withdraw, NextChargeAt, Accrued, Recovered;
    match ix
    case ChargeIx(k, plan, ata, g) =>
      var paid := ChargeGuards(w, now, k, plan, ata, g).value - w.subs[k].withdrawn;
      WithdrawExplains(w.bank, Purpose.Charge, k, ata, paid, a, initial);
    case SettleUsage(f, k, id, ata, amount) => WithdrawExplains(w.bank, Settle(id), k, ata, amount, a, initial);
    case Donate(owner, from, k, amount) => DepositExplains(w.bank, Donation, k, from, amount, a, initial);
    case TopUpIx(s, k, ata, amount, g) => DepositExplains(w.bank, Purpose.TopUp, k, ata, amount, a, initial);
  }

  lemma StepExplains(w: World, now: I64, ix: Instruction, a: Key, initial: int)
    requires Step(w, now, ix).Ok? && Explained(w.bank, a, initial)
    ensures Explained(Step(w, now, ix).value.bank, a, initial)
  {
    hide ChargeStep, SettleUsageStep, CancelStep, SubscribeStep, TopUpStep, DonateStep, Elapsed, Recovered;
    match ix
    case ChargeIx(_, _, _, _) => PaymentExplains(w, now, ix, a, initial);
    case SettleUsage(_, _, _, _, _) => PaymentExplains(w, now, ix, a, initial);
    case TopUpIx(_, _, _, _, _) => PaymentExplains(w, now, ix, a, initial);
    case Donate(_, _, _, _) => PaymentExplains(w, now, ix, a, initial);
    case Subscribe(s, plan, ata, n) => SubscribeExplains(w, now, s, plan, ata, n, a, initial);
    case Cancel(signer, k, rentTo, mAta, sAta, g, p) => CancelExplains(w, now, signer, k, rentTo, mAta, sAta, g, p, a, initial);
    case _ =>
  }
}
