/** Who must have signed for which change: wallets, records, sessions and plans, for any accounts and any clock. */
module Custody {
  import opened Integers
  import opened State
  import opened StreamMath
  import opened Handlers
  import opened Invariants
  import opened Settlement

  /** The wallet that signs an instruction with authority; anybody may submit a charge or open a token account. */
  function Signer(ix: Instruction): Option<Key> {
    match ix
    case CreatePlan(m, _, _, _, _) => Some(m)
    case Subscribe(s, _, _, _) => Some(s)
    case ChargeIx(_, _, _, _) => None
    case TopUpIx(s, _, _, _, _) => Some(s)
    case Pause(m, _) => Some(m)
    case Resume(m, _) => Some(m)
    case Cancel(signer, _, _, _, _, _, _) => Some(signer)
    case Cleanup(s, _) => Some(s)
    case OpenSession(s, _, _, _, _) => Some(s)
    case CloseSession(s, _, _) => Some(s)
    case SettleUsage(f, _, _, _, _) => Some(f)
    case TokenTransfer(owner, _, _, _) => Some(owner)
    case Donate(owner, _, _, _) => Some(owner)
    case OpenTokenAccount(_, _) => None
    case CloseTokenAccount(owner, _) => Some(owner)
    case AssignTokenAccount(owner, _, _) => Some(owner)
  }

  // ----- wallets -----

  /** Token account `a` is still there, still its owner's, and holds no less. */
  predicate Kept(b: Bank, b': Bank, a: Key) {
    a in b.accounts ==>
      a in b'.accounts && b'.accounts[a].owner == b.accounts[a].owner && b'.accounts[a].amount >= b.accounts[a].amount
  }

  lemma WithdrawKeeps(b: Bank, purpose: Purpose, k: SubKey, to: Key, amount: U64, a: Key)
    requires k in b.vaults && to in b.accounts && WithdrawAny(b, purpose, k, to, amount).Ok?
    ensures Kept(b, WithdrawAny(b, purpose, k, to, amount).value, a)
    ensures k in WithdrawAny(b, purpose, k, to, amount).value.vaults
  {
  }

  lemma PaymentKeeps(w: World, now: I64, ix: Instruction, a: Key)
    requires Step(w, now, ix).Ok? && (ix.ChargeIx? || ix.SettleUsage?)
    ensures Kept(w.bank, Step(w, now, ix).value.bank, a)
  {
    hide Withdraw, NextChargeAt, Accrued;
    match ix
    case ChargeIx(k, plan, ata, g) =>
      WithdrawKeeps(w.bank, Purpose.Charge, k, ata, ChargeGuards(w, now, k, plan, ata, g).value - w.subs[k].withdrawn, a);
    case SettleUsage(_, k, id, ata, amount) => WithdrawKeeps(w.bank, Settle(id), k, ata, amount, a);
  }

  lemma PayoutKeeps(w: World, now: I64, signer: Key, k: SubKey, rentTo: Key, mAta: Key, sAta: Key, g: bool, p: bool, a: Key)
    requires CancelStep(w, now, signer, k, rentTo, mAta, sAta, g, p).Ok?
    ensures Kept(w.bank, CancelStep(w, now, signer, k, rentTo, mAta, sAta, g, p).value.bank, a)
  {
    hide WithdrawAny, Accrued;
    var unlocked := CancelGuards(w, now, signer, k, rentTo, mAta, sAta, g, p).value;
    var claim, refund := unlocked - w.subs[k].withdrawn, w.subs[k].deposited - unlocked;
    WithdrawKeeps(w.bank, Claim, k, mAta, claim, a);
    WithdrawKeeps(w.bank, Claim, k, mAta, claim, sAta);
    WithdrawKeeps(WithdrawAny(w.bank, Claim, k, mAta, claim).value, Refund, k, sAta, refund, a);
  }

  lemma DepositKeeps(b: Bank, purpose: Purpose, k: SubKey, from: Key, amount: U64, a: Key)
    requires k in b.vaults && from in b.accounts && Deposit(b, purpose, k, from, amount).Ok?
    ensures a != from ==> Kept(b, Deposit(b, purpose, k, from, amount).value, a)
  {
  }

  lemma FundingCustody(w: World, now: I64, ix: Instruction, a: Key)
    requires ix.Subscribe? || ix.TopUpIx? || ix.Donate?
    requires Step(w, now, ix).Ok? && a in w.bank.accounts && !Kept(w.bank, Step(w, now, ix).value.bank, a)
    ensures Signer(ix) == Some(w.bank.accounts[a].owner)
  {
    hide Deposit, Recovered;
    match ix
    case Subscribe(s, plan, ata, n) =>
      var k := SubKey(s, plan);
      DepositKeeps(w.bank.(vaults := w.bank.vaults[k := 0]), Prefund, k, ata, SubscribeGuards(w, s, plan, ata, n).value, a);
    case TopUpIx(_, k, ata, amount, _) => DepositKeeps(w.bank, Purpose.TopUp, k, ata, amount, a);
    case Donate(_, from, k, amount) => DepositKeeps(w.bank, Donation, k, from, amount, a);
  }

  /** Wallet custody: a token account loses tokens, goes away or changes hands only when its owner signed. */
  lemma WalletCustody(w: World, now: I64, ix: Instruction, a: Key)
    requires Step(w, now, ix).Ok? && a in w.bank.accounts && !Kept(w.bank, Step(w, now, ix).value.bank, a)
    ensures Signer(ix) == Some(w.bank.accounts[a].owner)
  {
    hide ChargeStep, SettleUsageStep, CancelStep, SubscribeStep, TopUpStep, DonateStep;
    match ix
    case ChargeIx(_, _, _, _) => PaymentKeeps(w, now, ix, a);
    case SettleUsage(_, _, _, _, _) => PaymentKeeps(w, now, ix, a);
    case Cancel(signer, k, rentTo, mAta, sAta, g, p) => PayoutKeeps(w, now, signer, k, rentTo, mAta, sAta, g, p, a);
    case Subscribe(_, _, _, _) => FundingCustody(w, now, ix, a);
    case TopUpIx(_, _, _, _, _) => FundingCustody(w, now, ix, a);
    case Donate(_, _, _, _) => FundingCustody(w, now, ix, a);
    case _ =>
  }

  // ----- records -----

  /** What may happen to a record, by whose signature. */
  predicate RecordAuthorised(w: World, w': World, ix: Instruction, k: SubKey) {
    var signer := Signer(ix);
    if k !in w.subs then k in w'.subs ==> signer == Some(k.subscriber)
    else if k !in w'.subs then signer == Some(w.subs[k].subscriber) && !Live(w.subs[k].state)
    else
      var s, s' := w.subs[k], w'.subs[k];
      && Terms(s') == Terms(s)
      && (s'.deposited != s.deposited ==> signer == Some(s.subscriber) && s'.deposited > s.deposited)
      && (s'.state != s.state ==>
            match s'.state
            case Cancelled => signer == Some(s.subscriber) || signer == Some(s.merchant)
            case Paused => signer == Some(s.merchant)
            case Active => signer == Some(if s.state.Paused? then s.merchant else s.subscriber)
            case GracePeriod => ix.ChargeIx?
            case Exhausted => false)
      && (s'.streamStart != s.streamStart ==> s'.state.Active? && !s.state.Active?)
      && s'.withdrawn >= s.withdrawn
      && (s'.withdrawn != s.withdrawn ==>
            || ix.ChargeIx? || s'.state.Cancelled?
            || (ix.SettleUsage? && SessionKey(k, ix.sessionId) in w.sessions
                && signer == Some(w.sessions[SessionKey(k, ix.sessionId)].facilitator)))
  }

  /** What was agreed at subscribe. */
  function Terms(s: Subscription): (Key, PlanKey, U64, I64, Key, Key, Key, I64) {
    (s.subscriber, s.plan, s.price, s.period, s.tokenMint, s.merchant, s.merchantAta, s.createdAt)
  }

  lemma PaymentAuthorised(w: World, now: I64, ix: Instruction, k: SubKey)
    requires Step(w, now, ix).Ok? && Target(ix) == Some(k) && (ix.ChargeIx? || ix.SettleUsage?)
    ensures RecordAuthorised(w, Step(w, now, ix).value, ix, k)
  {
    hide Withdraw, NextChargeAt, Elapsed, Unlocked;
  }

  lemma SubscriberAuthorised(w: World, now: I64, ix: Instruction, k: SubKey)
    requires Step(w, now, ix).Ok? && Target(ix) == Some(k) && (ix.TopUpIx? || ix.Cancel?)
    ensures RecordAuthorised(w, Step(w, now, ix).value, ix, k)
  {
    hide WithdrawAny, Deposit, Elapsed, Unlocked, EffectiveNow;
  }

  lemma OtherAuthorised(w: World, now: I64, ix: Instruction, k: SubKey)
    requires Step(w, now, ix).Ok? && Target(ix) == Some(k) && !(ix.ChargeIx? || ix.TopUpIx? || ix.Cancel? || ix.SettleUsage?)
    ensures RecordAuthorised(w, Step(w, now, ix).value, ix, k)
  {
    hide ChargeStep, TopUpStep, CancelStep, SettleUsageStep, Deposit, Elapsed;
  }

  /**
   * Record custody: the terms of a subscription never change and neither of its two totals ever falls; it is
   * created, deposited into, brought back from grace and removed by its subscriber alone, paused and resumed by
   * its merchant alone, cancelled by one of the two; and it is drawn on only by the permissionless charge, the
   * facilitator of one of its sessions, or cancel.
   */
  lemma RecordCustody(w: World, now: I64, ix: Instruction, k: SubKey)
    requires Step(w, now, ix).Ok?
    ensures RecordAuthorised(w, Step(w, now, ix).value, ix, k)
  {
    hide Step;
    StepContained(w, now, ix, k);
    if Target(ix) == Some(k) {
      if ix.ChargeIx? || ix.SettleUsage? {
        PaymentAuthorised(w, now, ix, k);
      } else if ix.TopUpIx? || ix.Cancel? {
        SubscriberAuthorised(w, now, ix, k);
      } else {
        OtherAuthorised(w, now, ix, k);
      }
    }
  }

  // ----- sessions and plans -----

  /** What may happen to a session, by whose signature. */
  predicate SessionAuthorised(w: World, w': World, ix: Instruction, sk: SessionKey) {
    var signer := Signer(ix);
    if sk !in w.sessions then
      sk in w'.sessions ==>
        && IsActive(w, sk.sub) && signer == Some(w.subs[sk.sub].subscriber) && w'.sessions[sk].usage == 0
        && w'.sessions[sk].reservationCap <= w.subs[sk.sub].deposited - w.subs[sk.sub].withdrawn
    else if sk !in w'.sessions then sk.sub in w.subs && signer == Some(w.subs[sk.sub].subscriber)
    else
      w'.sessions[sk] != w.sessions[sk] ==>
        && signer == Some(w.sessions[sk].facilitator) && w'.sessions[sk].usage > w.sessions[sk].usage
        && Agreement(w'.sessions[sk]) == Agreement(w.sessions[sk])
  }

  /** What was agreed when the session was opened. */
  function Agreement(p: PaySession): PaySession {
    p.(usage := 0, lastSettleAt := 0, state := Open)
  }

  /**
   * Session custody: the subscriber of an Active parent opens a session, with a cap the remaining escrow covers,
   * and the parent's subscriber closes it; only the facilitator it names adds to its usage, and nobody changes
   * anything else about it.
   */
  lemma SessionCustody(w: World, now: I64, ix: Instruction, sk: SessionKey)
    requires Step(w, now, ix).Ok?
    ensures SessionAuthorised(w, Step(w, now, ix).value, ix, sk)
  {
    hide Withdraw, Elapsed, Unlocked, CreatePlanStep, SubscribeStep, ChargeStep, TopUpStep, PauseStep, ResumeStep, CancelStep,
         CleanupStep, TokenTransferStep;
    if !ix.OpenSession? && !ix.CloseSession? && !ix.SettleUsage? { SessionsUntouched(w, now, ix); }
  }

  /** Plan custody: a plan appears under its merchant's signature, paying into an account he owns, and never changes. */
  lemma PlanCustody(w: World, now: I64, ix: Instruction, pk: PlanKey)
    requires Step(w, now, ix).Ok?
    ensures pk in w.plans ==> SameAt(w.plans, Step(w, now, ix).value.plans, pk)
    ensures pk !in w.plans && pk in Step(w, now, ix).value.plans ==>
      var p := Step(w, now, ix).value.plans[pk];
      Signer(ix) == Some(pk.merchant) && p.merchantAta in w.bank.accounts && w.bank.accounts[p.merchantAta].owner == pk.merchant
  {
    hide Withdraw, WithdrawAny, Deposit, Transfer, ChargeGuards, CancelGuards, SubscribeGuards, SettleGuards, NextChargeAt,
         Recovered;
  }
}
