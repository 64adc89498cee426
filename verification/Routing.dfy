/** Whose token accounts the escrowed tokens come from and go to, over whole histories. */
module Routing {
  import opened Integers
  import opened State
  import opened StreamMath
  import opened Handlers
  import opened Books
  import opened Invariants
  import opened Runs

  /** Payments go to the account the plan names; deposits and refunds touch only accounts the subscriber owns. */
  predicate RoutedMove(plans: map<PlanKey, Plan>, m: Movement) {
    m.Escrow? ==>
      && (m.purpose.ToMerchant() ==> m.sub.plan in plans && m.account == plans[m.sub.plan].merchantAta)
      && (m.purpose.Prefund? || m.purpose.TopUp? || m.purpose.Refund? ==> m.owner == m.sub.subscriber)
  }

  predicate Routed(plans: map<PlanKey, Plan>, j: Journal) {
    match j
    case Blank => true
    case Logged(earlier, last) => Routed(plans, earlier) && RoutedMove(plans, last)
  }

  /** The journal names the owner the account had when the tokens moved. */
  predicate Honest(accounts: map<Key, TokenAccount>, m: Movement) {
    m.Escrow? ==> m.account in accounts && accounts[m.account].owner == m.owner
  }

  /** `j` is the journal of `w` and, on top, movements that are routed and name the true owners. */
  predicate Grown(w: World, j: Journal) {
    || j == w.bank.journal
    || (j.Logged? && RoutedMove(w.plans, j.last) && Honest(w.bank.accounts, j.last) && Grown(w, j.earlier))
  }

  /** The bank after transfers of `w`: the journal has grown, and the accounts still have their owners. */
  predicate Carried(w: World, b: Bank) {
    && Grown(w, b.journal)
    && forall a :: a in w.bank.accounts ==> a in b.accounts && b.accounts[a].owner == w.bank.accounts[a].owner
  }

  lemma DepositCarries(w: World, b: Bank, purpose: Purpose, k: SubKey, from: Key, amount: U64)
    requires Carried(w, b) && k in b.vaults && from in w.bank.accounts && Deposit(b, purpose, k, from, amount).Ok?
    requires purpose.Incoming() && (purpose.Donation? || w.bank.accounts[from].owner == k.subscriber)
    ensures Carried(w, Deposit(b, purpose, k, from, amount).value)
  {
  }

  lemma WithdrawCarries(w: World, b: Bank, purpose: Purpose, k: SubKey, to: Key, amount: U64)
    requires Carried(w, b) && k in b.vaults && to in w.bank.accounts && WithdrawAny(b, purpose, k, to, amount).Ok?
    requires !purpose.Incoming()
    requires purpose.ToMerchant() ==> k.plan in w.plans && to == w.plans[k.plan].merchantAta
    requires purpose.Refund? ==> w.bank.accounts[to].owner == k.subscriber
    ensures Carried(w, WithdrawAny(b, purpose, k, to, amount).value)
  {
  }

  lemma SubscribeCarries(w: World, now: I64, s: Key, plan: PlanKey, ata: Key, n: U8)
    requires SubscribeStep(w, now, s, plan, ata, n).Ok?
    ensures Carried(w, SubscribeStep(w, now, s, plan, ata, n).value.bank)
  {
    hide Deposit;
    var k := SubKey(s, plan);
    var deposited := SubscribeGuards(w, s, plan, ata, n).value;
    DepositCarries(w, w.bank.(vaults := w.bank.vaults[k := 0]), Prefund, k, ata, deposited);
  }

  lemma CancelCarries(w: World, now: I64, signer: Key, k: SubKey, rentTo: Key, mAta: Key, sAta: Key, g: bool, p: bool)
    requires KeyOk(w, k) && CancelStep(w, now, signer, k, rentTo, mAta, sAta, g, p).Ok?
    ensures Carried(w, CancelStep(w, now, signer, k, rentTo, mAta, sAta, g, p).value.bank)
  {
    hide WithdrawAny, Accrued, BookOf;
    var unlocked := CancelGuards(w, now, signer, k, rentTo, mAta, sAta, g, p).value;
    var claim, refund := unlocked - w.subs[k].withdrawn, w.subs[k].deposited - unlocked;
    WithdrawMoves(w.bank, Claim, k, mAta, claim, k);
    WithdrawCarries(w, w.bank, Claim, k, mAta, claim);
    WithdrawCarries(w, WithdrawAny(w.bank, Claim, k, mAta, claim).value, Refund, k, sAta, refund);
  }

  lemma PaymentCarries(w: World, now: I64, ix: Instruction)
    requires Step(w, now, ix).Ok? && (ix.ChargeIx? || ix.SettleUsage?) && KeyOk(w, ix.sub)
    requires forall sk :: sk in w.sessions ==> SessionOk(w, sk, w.sessions[sk])
    ensures Carried(w, Step(w, now, ix).value.bank)
  {
    hide Withdraw, NextChargeAt, Unlocked, BookOf, EscrowOk, SatellitesOk, BookOk, Carried;
    StartsCarried(w);
    match ix
    case ChargeIx(k, plan, ata, g) =>
      WithdrawCarries(w, w.bank, Purpose.Charge, k, ata, ChargeGuards(w, now, k, plan, ata, g).value - w.subs[k].withdrawn);
    case SettleUsage(f, k, id, ata, amount) => WithdrawCarries(w, w.bank, Settle(id), k, ata, amount);
  }

  lemma StartsCarried(w: World)
    ensures Carried(w, w.bank)
  {
  }

  lemma FundingCarries(w: World, now: I64, ix: Instruction)
    requires Step(w, now, ix).Ok? && (ix.TopUpIx? || ix.Donate?) && KeyOk(w, ix.sub)
    ensures Carried(w, Step(w, now, ix).value.bank)
  {
    hide Deposit, Recovered, BookOf;
    match ix
    case Donate(owner, from, k, amount) => DepositCarries(w, w.bank, Donation, k, from, amount);
    case TopUpIx(s, k, ata, amount, g) => DepositCarries(w, w.bank, Purpose.TopUp, k, ata, amount);
  }

  /** Every transfer an instruction makes is routed, and the journal names the accounts' owners at that moment. */
  lemma StepGrows(w: World, now: I64, ix: Instruction)
    requires Inv(w) && Step(w, now, ix).Ok?
    ensures Grown(w, Step(w, now, ix).value.bank.journal)
  {
    hide KeyOk, SessionOk, Supply, ChargeStep, SettleUsageStep, CancelStep, SubscribeStep, TopUpStep, DonateStep, Elapsed,
         Recovered;
    match ix
    case ChargeIx(k, _, _, _) => assert KeyOk(w, k); PaymentCarries(w, now, ix);
    case SettleUsage(_, k, _, _, _) => assert KeyOk(w, k); PaymentCarries(w, now, ix);
    case TopUpIx(_, k, _, _, _) => assert KeyOk(w, k); FundingCarries(w, now, ix);
    case Donate(_, _, k, _) => assert KeyOk(w, k); FundingCarries(w, now, ix);
    case Subscribe(s, plan, ata, n) => SubscribeCarries(w, now, s, plan, ata, n);
    case Cancel(signer, k, rentTo, mAta, sAta, g, p) =>
      assert KeyOk(w, k);
      CancelCarries(w, now, signer, k, rentTo, mAta, sAta, g, p);
    case TokenTransfer(_, from, to, amount) =>
      assert Step(w, now, ix).value.bank.journal == Logged(w.bank.journal, Direct(from, to, amount));
    case _ =>
  }

  lemma {:induction false} GrownIsRouted(w: World, j: Journal)
    requires Routed(w.plans, w.bank.journal) && Grown(w, j)
    ensures Routed(w.plans, j)
    decreases j
  {
    if j != w.bank.journal { GrownIsRouted(w, j.earlier); }
  }

  lemma {:induction false} RoutedFrame(w: World, w': World, j: Journal)
    requires PlansGrow(w, w') && Routed(w.plans, j)
    ensures Routed(w'.plans, j)
  {
    match j
    case Blank =>
    case Logged(earlier, _) => RoutedFrame(w, w', earlier);
  }

  /**
   * Routing, over every history and any clock: whatever the permissionless trigger, the facilitator or the
   * canceller passed as destination, every payment went to the account the plan named when it was created, and
   * every deposit came from, and every refund went to, an account its subscriber owned at that moment.
   */
  lemma {:induction false} EscrowIsRouted(r: Run)
    requires Funded(r)
    ensures Routed(After(r).plans, After(r).bank.journal)
  {
    hide Step, Inv;
    match r
    case Genesis(_) =>
    case Then(earlier, now, ix) =>
      EscrowIsRouted(earlier);
      RunInvariant(earlier);
      var w := After(earlier);
      if Step(w, now, ix).Ok? {
        var w' := Step(w, now, ix).value;
        StepGrows(w, now, ix);
        GrownIsRouted(w, w'.bank.journal);
        StepContained(w, now, ix, SubKey(0, PlanKey(0, 0)));
        RoutedFrame(w, w', w'.bank.journal);
      }
  }

  // ----- whose totals the books are -----

  /** Everything this lifetime of `k` paid, by either writer or the final claim, into token account `a`. */
  function PaidInto(j: Journal, k: SubKey, a: Key): nat {
    match j
    case Blank => 0
    case Logged(earlier, m) => Tallied(PaidInto(earlier, k, a), m, k, m.Escrow? && m.purpose.ToMerchant() && m.account == a)
  }

  /** Everything this lifetime of `k` refunded into accounts `owner` owned at the time. */
  function RefundedTo(j: Journal, k: SubKey, owner: Key): nat {
    match j
    case Blank => 0
    case Logged(earlier, m) => Tallied(RefundedTo(earlier, k, owner), m, k, m.Escrow? && m.purpose.Refund? && m.owner == owner)
  }

  /** Everything this lifetime of `k` took in, by prefund or top-up, from accounts `owner` owned at the time. */
  function FundedBy(j: Journal, k: SubKey, owner: Key): nat {
    match j
    case Blank => 0
    case Logged(earlier, m) =>
      Tallied(FundedBy(earlier, k, owner), m, k, m.Escrow? && (m.purpose.Prefund? || m.purpose.TopUp?) && m.owner == owner)
  }

  /** A running total of `k`'s movements that count; a prefund starts it over. */
  function Tallied(total: nat, m: Movement, k: SubKey, counts: bool): nat {
    if !m.Escrow? || m.sub != k then total
    else (if m.purpose.Prefund? then 0 else total) + (if counts then m.amount else 0)
  }

  lemma EntryHasOwner(plans: map<PlanKey, Plan>, b: Book, m: Movement, k: SubKey)
    requires RoutedMove(plans, m) && k.plan in plans
    ensures Entered(b, m, k).Receipts()
         == Tallied(b.Receipts(), m, k, m.Escrow? && m.purpose.ToMerchant() && m.account == plans[k.plan].merchantAta)
    ensures Entered(b, m, k).refunded == Tallied(b.refunded, m, k, m.Escrow? && m.purpose.Refund? && m.owner == k.subscriber)
    ensures Entered(b, m, k).deposits
         == Tallied(b.deposits, m, k, m.Escrow? && (m.purpose.Prefund? || m.purpose.TopUp?) && m.owner == k.subscriber)
  {
  }

  /** On a routed journal the book's totals are the merchant's receipts and the subscriber's refunds and deposits. */
  lemma {:induction false} BooksHaveOwners(plans: map<PlanKey, Plan>, j: Journal, k: SubKey)
    requires Routed(plans, j) && k.plan in plans
    ensures BookOf(j, k).Receipts() == PaidInto(j, k, plans[k.plan].merchantAta)
    ensures BookOf(j, k).refunded == RefundedTo(j, k, k.subscriber)
    ensures BookOf(j, k).deposits == FundedBy(j, k, k.subscriber)
  {
    hide Tallied, Entered, RoutedMove;
    match j
    case Blank =>
    case Logged(earlier, last) =>
      BooksHaveOwners(plans, earlier, k);
      EntryHasOwner(plans, BookOf(earlier, k), last, k);
  }
}
