/** What holds after every instruction, whatever the clock does. */
module Invariants {
  import opened Integers
  import opened State
  import opened StreamMath
  import opened Handlers
  import opened Books

  predicate Live(state: SubscriptionState) {
    state.Active? || state.Paused? || state.GracePeriod?
  }

  predicate Lives(w: World, k: SubKey) {
    k in w.subs && Live(w.subs[k].state)
  }

  ghost predicate PlanOk(pk: PlanKey, p: Plan) {
    && p.merchant == pk.merchant && p.planId == pk.planId && p.tokenMint == USDC_MINT
    && p.price > 0 && p.period > 0
  }

  /** The snapshot taken at subscribe is the plan's, and the plan passed the subscribe guard. */
  ghost predicate SnapshotOk(w: World, k: SubKey)
    requires k in w.subs
  {
    var s := w.subs[k];
    && k.plan in w.plans
    && s.subscriber == k.subscriber && s.plan == k.plan
    && s.price == w.plans[k.plan].price && s.period == w.plans[k.plan].period
    && s.merchant == w.plans[k.plan].merchant && s.merchantAta == w.plans[k.plan].merchantAta
    && s.tokenMint == w.plans[k.plan].tokenMint
    && 0 < s.period <= s.price
  }

  /**
   * The vault holds exactly the deposits not yet withdrawn and what outsiders sent to it, and exists exactly while
   * the subscription is live.
   */
  ghost predicate EscrowOk(w: World, k: SubKey)
    requires k in w.subs
  {
    var s := w.subs[k];
    && 0 < s.deposited && s.withdrawn <= s.deposited
    && (k in w.bank.vaults <==> Live(s.state))
    && (k in w.bank.vaults ==> w.bank.vaults[k] == s.deposited - s.withdrawn + BookOf(w.bank.journal, k).donated)
  }

  /** A satellite exists exactly in its own state; grace means nothing is left; Exhausted is never entered. */
  ghost predicate SatellitesOk(w: World, k: SubKey)
    requires k in w.subs
  {
    var s := w.subs[k];
    && (k in w.paused <==> s.state.Paused?)
    && (k in w.paused ==> w.paused[k].subscription == k)
    && (k in w.graced <==> s.state.GracePeriod?)
    && (k in w.graced ==> w.graced[k].subscription == k && w.graced[k].graceUntil == w.graced[k].enteredGraceAt + GRACE_DURATION)
    && (s.state.GracePeriod? ==> s.withdrawn == s.deposited)
    && !s.state.Exhausted?
  }

  /** The two running totals of the record are the journal's totals for this lifetime of the address. */
  ghost predicate BookOk(w: World, k: SubKey)
    requires k in w.subs
  {
    var s := w.subs[k];
    var b := BookOf(w.bank.journal, k);
    && b.deposits == s.deposited
    && b.Receipts() == s.withdrawn
    && b.payments <= b.charged + b.settled
    && (Live(s.state) ==> b.claimed == 0 && b.refunded == 0)
    && (s.state.Cancelled? ==> b.refunded == s.deposited - s.withdrawn)
  }

  ghost predicate KeyOk(w: World, k: SubKey) {
    if k in w.subs then SnapshotOk(w, k) && EscrowOk(w, k) && SatellitesOk(w, k) && BookOk(w, k)
    else k !in w.bank.vaults && k !in w.graced && k !in w.paused
  }

  /** A stored session is Open, within its cap, and routes to its plan's merchant even if it outlived its parent. */
  ghost predicate SessionOk(w: World, sk: SessionKey, p: PaySession) {
    && p.subscription == sk.sub && p.sessionId == sk.sessionId
    && p.state.Open?
    && (p.reservationCap > 0 ==> p.usage <= p.reservationCap)
    && sk.sub.plan in w.plans
    && p.merchant == w.plans[sk.sub.plan].merchant && p.merchantAta == w.plans[sk.sub.plan].merchantAta
  }

  ghost predicate Inv(w: World) {
    && (forall pk :: pk in w.plans ==> PlanOk(pk, w.plans[pk]))
    && (forall k :: KeyOk(w, k))
    && (forall sk :: sk in w.sessions ==> SessionOk(w, sk, w.sessions[sk]))
    && 0 <= Supply(w.bank) <= U64_MAX
  }

  // ----- what an instruction leaves alone -----

  /** The subscription an instruction works on. */
  function Target(ix: Instruction): Option<SubKey> {
    match ix
    case CreatePlan(_, _, _, _, _) => None
    case TokenTransfer(_, _, _, _) => None
    case OpenTokenAccount(_, _) => None
    case CloseTokenAccount(_, _) => None
    case AssignTokenAccount(_, _, _) => None
    case Subscribe(s, plan, _, _) => Some(SubKey(s, plan))
    case _ => Some(ix.sub)
  }

  ghost predicate SameAt<K, V>(m: map<K, V>, m': map<K, V>, k: K) {
    (k in m <==> k in m') && (k in m ==> m[k] == m'[k])
  }

  ghost predicate SameEscrow(b: Bank, b': Bank, k: SubKey) {
    SameAt(b.vaults, b'.vaults, k) && BookOf(b.journal, k) == BookOf(b'.journal, k)
  }

  /** `k`'s record, satellites, vault and books are the same in both worlds. */
  ghost predicate Alike(w: World, w': World, k: SubKey) {
    && SameAt(w.subs, w'.subs, k)
    && SameAt(w.graced, w'.graced, k)
    && SameAt(w.paused, w'.paused, k)
    && SameEscrow(w.bank, w'.bank, k)
  }

  ghost predicate PlansGrow(w: World, w': World) {
    forall pk :: pk in w.plans ==> pk in w'.plans && w'.plans[pk] == w.plans[pk]
  }

  ghost predicate AccountsStay(b: Bank, b': Bank) {
    forall a :: (a in b.accounts <==> a in b'.accounts) && (a in b.accounts ==> b.accounts[a].owner == b'.accounts[a].owner)
  }

  // ----- transfers -----

  lemma AmountsUpdate(accounts: map<Key, TokenAccount>, a: Key, t: TokenAccount)
    requires a in accounts
    ensures Total(Amounts(accounts[a := t])) == Total(Amounts(accounts)) - accounts[a].amount + t.amount
  {
    assert Amounts(accounts[a := t]) == Amounts(accounts)[a := t.amount];
    TotalUpdate(Amounts(accounts), a, t.amount);
  }

  lemma EscrowsUpdate(vaults: map<SubKey, U64>, k: SubKey, v: U64)
    ensures Total(Escrows(vaults[k := v])) == Total(Escrows(vaults - {k})) + v
    ensures k in vaults ==> Total(Escrows(vaults - {k})) == Total(Escrows(vaults)) - vaults[k]
    ensures k !in vaults ==> Total(Escrows(vaults - {k})) == Total(Escrows(vaults))
  {
    assert Escrows(vaults[k := v]) == Escrows(vaults)[k := v];
    assert Escrows(vaults - {k}) == Escrows(vaults) - {k};
    TotalUpdate(Escrows(vaults), k, v);
  }

  /** What one transfer for `k` does to the bank, seen from subscription `j`. */
  ghost predicate Moved(b: Bank, b': Bank, k: SubKey, j: SubKey) {
    && Supply(b') == Supply(b) && AccountsStay(b, b')
    && (k in b.vaults ==> k in b'.vaults)
    && (j != k ==> SameEscrow(b, b', j))
  }

  lemma DepositMoves(b: Bank, purpose: Purpose, k: SubKey, from: Key, amount: U64, j: SubKey)
    requires k in b.vaults && from in b.accounts && Deposit(b, purpose, k, from, amount).Ok?
    ensures Moved(b, Deposit(b, purpose, k, from, amount).value, k, j)
  {
    hide Total;
    AmountsUpdate(b.accounts, from, b.accounts[from].(amount := b.accounts[from].amount - amount));
    EscrowsUpdate(b.vaults, k, b.vaults[k] + amount);
  }

  lemma WithdrawMoves(b: Bank, purpose: Purpose, k: SubKey, to: Key, amount: U64, j: SubKey)
    requires k in b.vaults && to in b.accounts && WithdrawAny(b, purpose, k, to, amount).Ok?
    ensures Moved(b, WithdrawAny(b, purpose, k, to, amount).value, k, j)
  {
    hide Total;
    if amount > 0 {
      AmountsUpdate(b.accounts, to, b.accounts[to].(amount := b.accounts[to].amount + amount));
      EscrowsUpdate(b.vaults, k, b.vaults[k] - amount);
    }
  }

  lemma OpenVaultMoves(b: Bank, k: SubKey, j: SubKey)
    requires k !in b.vaults
    ensures Moved(b, b.(vaults := b.vaults[k := 0]), k, j)
  {
    hide Total;
    EscrowsUpdate(b.vaults, k, 0);
  }

  lemma TransferMoves(b: Bank, owner: Key, from: Key, to: Key, amount: U64, k: SubKey, j: SubKey)
    requires Transfer(b, owner, from, to, amount).Ok?
    ensures Moved(b, Transfer(b, owner, from, to, amount).value, k, j)
    ensures SameEscrow(b, Transfer(b, owner, from, to, amount).value, j)
  {
    hide Total;
    var debited := b.accounts[from := b.accounts[from].(amount := b.accounts[from].amount - amount)];
    AmountsUpdate(b.accounts, from, debited[from]);
    AmountsUpdate(debited, to, debited[to].(amount := debited[to].amount + amount));
  }

  lemma MovedTwice(b: Bank, b1: Bank, b2: Bank, k: SubKey, j: SubKey)
    requires Moved(b, b1, k, j) && Moved(b1, b2, k, j)
    ensures Moved(b, b2, k, j)
  {
    hide Supply, BookOf;
  }

  // ----- isolation and conservation -----

  /** What an instruction on `target` must leave alone, seen from subscription `j`. */
  ghost predicate Contained(w: World, w': World, target: Option<SubKey>, j: SubKey) {
    && (target != Some(j) ==> Alike(w, w', j)) && PlansGrow(w, w')
    && (target.Some? ==> AccountsStay(w.bank, w'.bank)) && Supply(w'.bank) == Supply(w.bank)
  }

  lemma SubscribeContained(w: World, now: I64, subscriber: Key, plan: PlanKey, ata: Key, periods: U8, j: SubKey)
    requires SubscribeStep(w, now, subscriber, plan, ata, periods).Ok?
    ensures Contained(w, SubscribeStep(w, now, subscriber, plan, ata, periods).value, Some(SubKey(subscriber, plan)), j)
  {
    hide Deposit, Supply, BookOf, Moved;
    var k := SubKey(subscriber, plan);
    var b := w.bank.(vaults := w.bank.vaults[k := 0]);
    var deposited := SubscribeGuards(w, subscriber, plan, ata, periods).value;
    OpenVaultMoves(w.bank, k, j);
    DepositMoves(b, Prefund, k, ata, deposited, j);
    var b' := Deposit(b, Prefund, k, ata, deposited).value;
    MovedTwice(w.bank, b, b', k, j);
    var s := SubscribeStep(w, now, subscriber, plan, ata, periods).value.subs[k];
    RecordContained(w, w.(bank := b', subs := w.subs[k := s]), k, j);
  }

  /** Writing only `k`'s record, after transfers for `k`, is contained. */
  lemma RecordContained(w: World, w': World, k: SubKey, j: SubKey)
    requires Moved(w.bank, w'.bank, k, j) && w'.plans == w.plans && w'.graced == w.graced && w'.paused == w.paused
    requires j != k ==> SameAt(w.subs, w'.subs, j)
    ensures Contained(w, w', Some(k), j)
  {
    hide Supply, BookOf;
  }

  lemma ChargeTailContained(w: World, b: Bank, now: I64, k: SubKey, unlocked: U64, g: bool, j: SubKey)
    requires k in w.subs && w.subs[k].period > 0 && Moved(w.bank, b, k, j)
    requires ChargeTail(w.(bank := b), now, k, unlocked, g).Ok?
    ensures Contained(w, ChargeTail(w.(bank := b), now, k, unlocked, g).value, Some(k), j)
  {
    hide Supply, BookOf, NextChargeAt;
  }

  lemma ChargeContained(w: World, now: I64, k: SubKey, plan: PlanKey, ata: Key, g: bool, j: SubKey)
    requires ChargeStep(w, now, k, plan, ata, g).Ok?
    ensures Contained(w, ChargeStep(w, now, k, plan, ata, g).value, Some(k), j)
  {
    hide Withdraw, ChargeTail, Contained, Moved, Unlocked;
    var unlocked := ChargeGuards(w, now, k, plan, ata, g).value;
    var paid := unlocked - w.subs[k].withdrawn;
    WithdrawMoves(w.bank, Purpose.Charge, k, ata, paid, j);
    ChargeTailContained(w, Withdraw(w.bank, Purpose.Charge, k, ata, paid).value, now, k, unlocked, g, j);
  }

  lemma TopUpContained(w: World, now: I64, subscriber: Key, k: SubKey, ata: Key, amount: U64, g: bool, j: SubKey)
    requires TopUpStep(w, now, subscriber, k, ata, amount, g).Ok?
    ensures Contained(w, TopUpStep(w, now, subscriber, k, ata, amount, g).value, Some(k), j)
  {
    hide Total, Deposit, Supply, BookOf, Recovered;
    DepositMoves(w.bank, Purpose.TopUp, k, ata, amount, j);
  }

  lemma SettleTailContained(w: World, b: Bank, now: I64, k: SubKey, id: U64, amount: U64, j: SubKey)
    requires k in w.subs && SessionKey(k, id) in w.sessions && w.subs[k].withdrawn + amount <= U64_MAX
    requires Moved(w.bank, b, k, j) && SettleTail(w.(bank := b), now, k, id, amount).Ok?
    ensures Contained(w, SettleTail(w.(bank := b), now, k, id, amount).value, Some(k), j)
  {
    hide Supply, BookOf;
  }

  lemma SettleContained(w: World, now: I64, f: Key, k: SubKey, id: U64, ata: Key, amount: U64, j: SubKey)
    requires SettleUsageStep(w, now, f, k, id, ata, amount).Ok?
    ensures Contained(w, SettleUsageStep(w, now, f, k, id, ata, amount).value, Some(k), j)
  {
    hide Withdraw, SettleTail, Supply, BookOf, Accrued;
    WithdrawMoves(w.bank, Settle(id), k, ata, amount, j);
    var b := Withdraw(w.bank, Settle(id), k, ata, amount).value;
    var sk := SessionKey(k, id);
    var locked := w.(sessions := w.sessions[sk := w.sessions[sk].(state := Settling)]);
    SettleTailContained(locked, b, now, k, id, amount, j);
  }

  lemma TombstoneContained(w: World, b: Bank, now: I64, k: SubKey, unlocked: U64, g: bool, p: bool, j: SubKey)
    requires k in w.subs && k in b.vaults && Moved(w.bank, b, k, j)
    requires Tombstone(w.(bank := b), now, k, unlocked, g, p).Ok?
    ensures Contained(w, Tombstone(w.(bank := b), now, k, unlocked, g, p).value, Some(k), j)
  {
    hide Total;
    EscrowsUpdate(b.vaults, k, 0);
  }

  lemma PayoutMoves(b: Bank, k: SubKey, mAta: Key, sAta: Key, claim: U64, refund: U64, j: SubKey)
    requires k in b.vaults && mAta in b.accounts && sAta in b.accounts && WithdrawAny(b, Claim, k, mAta, claim).Ok?
    requires WithdrawAny(WithdrawAny(b, Claim, k, mAta, claim).value, Refund, k, sAta, refund).Ok?
    ensures Moved(b, WithdrawAny(WithdrawAny(b, Claim, k, mAta, claim).value, Refund, k, sAta, refund).value, k, j)
  {
    var b1 := WithdrawAny(b, Claim, k, mAta, claim).value;
    WithdrawMoves(b, Claim, k, mAta, claim, j);
    WithdrawMoves(b1, Refund, k, sAta, refund, j);
    MovedTwice(b, b1, WithdrawAny(b1, Refund, k, sAta, refund).value, k, j);
    hide *;
  }

  lemma CancelContained(w: World, now: I64, signer: Key, k: SubKey, rentTo: Key, mAta: Key, sAta: Key, g: bool,
                        p: bool, j: SubKey)
    requires CancelStep(w, now, signer, k, rentTo, mAta, sAta, g, p).Ok?
    ensures Contained(w, CancelStep(w, now, signer, k, rentTo, mAta, sAta, g, p).value, Some(k), j)
  {
    hide WithdrawAny, Tombstone, Contained, Supply, BookOf;
    var unlocked := CancelGuards(w, now, signer, k, rentTo, mAta, sAta, g, p).value;
    var claim, refund := unlocked - w.subs[k].withdrawn, w.subs[k].deposited - unlocked;
    WithdrawMoves(w.bank, Claim, k, mAta, claim, j);
    var b2 := WithdrawAny(WithdrawAny(w.bank, Claim, k, mAta, claim).value, Refund, k, sAta, refund).value;
    PayoutMoves(w.bank, k, mAta, sAta, claim, refund, j);
    TombstoneContained(w, b2, now, k, unlocked, g, p, j);
  }

  lemma PauseResumeContained(w: World, now: I64, merchant: Key, k: SubKey, j: SubKey)
    ensures PauseStep(w, now, merchant, k).Ok? ==> Contained(w, PauseStep(w, now, merchant, k).value, Some(k), j)
    ensures ResumeStep(w, now, merchant, k).Ok? ==> Contained(w, ResumeStep(w, now, merchant, k).value, Some(k), j)
  {
    hide Supply, BookOf, Elapsed, Recovered;
  }

  lemma DonateContained(w: World, owner: Key, from: Key, k: SubKey, amount: U64, j: SubKey)
    requires DonateStep(w, owner, from, k, amount).Ok?
    ensures Contained(w, DonateStep(w, owner, from, k, amount).value, Some(k), j)
  {
    hide Deposit, Supply, BookOf;
    DepositMoves(w.bank, Donation, k, from, amount, j);
  }

  /** Opening, closing or handing over a token account moves no tokens. */
  lemma TokenAccountContained(w: World, now: I64, ix: Instruction, a: Key, j: SubKey)
    requires Step(w, now, ix).Ok?
    requires (ix.OpenTokenAccount? || ix.CloseTokenAccount? || ix.AssignTokenAccount?) && ix.account == a
    ensures Contained(w, Step(w, now, ix).value, None, j)
  {
    hide Total, BookOf;
    var w' := Step(w, now, ix).value;
    if ix.AssignTokenAccount? {
      AmountsUpdate(w.bank.accounts, a, w'.bank.accounts[a]);
    } else if ix.OpenTokenAccount? {
      AmountsAdd(w.bank.accounts, a, ix.owner);
    } else {
      AmountsAdd(w'.bank.accounts, a, w.bank.accounts[a].owner);
      assert w'.bank.accounts[a := w.bank.accounts[a]] == w.bank.accounts;
    }
  }

  lemma AmountsAdd(accounts: map<Key, TokenAccount>, a: Key, owner: Key)
    requires a !in accounts
    ensures Total(Amounts(accounts[a := TokenAccount(owner, 0)])) == Total(Amounts(accounts))
  {
    assert Amounts(accounts[a := TokenAccount(owner, 0)]) == Amounts(accounts)[a := 0];
    TotalUpdate(Amounts(accounts), a, 0);
  }

  lemma StepContained(w: World, now: I64, ix: Instruction, j: SubKey)
    requires Step(w, now, ix).Ok?
    ensures Contained(w, Step(w, now, ix).value, Target(ix), j)
  {
    hide Supply, BookOf, SubscribeStep, ChargeStep, TopUpStep, CancelStep, SettleUsageStep, PauseStep, ResumeStep, Transfer,
         DonateStep, OpenTokenAccountStep, CloseTokenAccountStep, AssignTokenAccountStep;
    match ix
    case CreatePlan(_, _, _, _, _) =>
    case Subscribe(s, plan, ata, n) => SubscribeContained(w, now, s, plan, ata, n, j);
    case ChargeIx(k, plan, ata, g) => ChargeContained(w, now, k, plan, ata, g, j);
    case TopUpIx(s, k, ata, amount, g) => TopUpContained(w, now, s, k, ata, amount, g, j);
    case Pause(m, k) => PauseResumeContained(w, now, m, k, j);
    case Resume(m, k) => PauseResumeContained(w, now, m, k, j);
    case Cancel(signer, k, rentTo, mAta, sAta, g, p) => CancelContained(w, now, signer, k, rentTo, mAta, sAta, g, p, j);
    case Cleanup(_, _) =>
    case OpenSession(_, _, _, _, _) =>
    case CloseSession(_, _, _) =>
    case SettleUsage(f, k, id, ata, amount) => SettleContained(w, now, f, k, id, ata, amount, j);
    case TokenTransfer(owner, from, to, amount) => TransferMoves(w.bank, owner, from, to, amount, j, j);
    case Donate(owner, from, k, amount) => DonateContained(w, owner, from, k, amount, j);
    case OpenTokenAccount(a, owner) => TokenAccountContained(w, now, ix, a, j);
    case CloseTokenAccount(owner, a) => TokenAccountContained(w, now, ix, a, j);
    case AssignTokenAccount(owner, a, _) => TokenAccountContained(w, now, ix, a, j);
  }

  // ----- the invariant on the subscription an instruction works on -----

  /** What one transfer does to its own escrow. */
  lemma DepositHere(b: Bank, purpose: Purpose, k: SubKey, from: Key, amount: U64)
    requires k in b.vaults && from in b.accounts && Deposit(b, purpose, k, from, amount).Ok?
    ensures var b' := Deposit(b, purpose, k, from, amount).value;
      && k in b'.vaults && b'.vaults[k] == b.vaults[k] + amount
      && BookOf(b'.journal, k) == Entered(BookOf(b.journal, k), Escrow(purpose, k, from, b.accounts[from].owner, amount), k)
  {
  }

  lemma WithdrawHere(b: Bank, purpose: Purpose, k: SubKey, to: Key, amount: U64)
    requires k in b.vaults && to in b.accounts && Withdraw(b, purpose, k, to, amount).Ok?
    ensures var b' := Withdraw(b, purpose, k, to, amount).value;
      && k in b'.vaults && b'.vaults[k] == b.vaults[k] - amount
      && BookOf(b'.journal, k) == Entered(BookOf(b.journal, k), Escrow(purpose, k, to, b.accounts[to].owner, amount), k)
  {
  }

  lemma SubscribeKeeps(w: World, now: I64, subscriber: Key, plan: PlanKey, ata: Key, periods: U8)
    requires SubscribeStep(w, now, subscriber, plan, ata, periods).Ok?
    requires PlanOk(plan, w.plans[plan]) && KeyOk(w, SubKey(subscriber, plan))
    ensures KeyOk(SubscribeStep(w, now, subscriber, plan, ata, periods).value, SubKey(subscriber, plan))
  {
    hide Deposit;
    var k := SubKey(subscriber, plan);
    var deposited := SubscribeGuards(w, subscriber, plan, ata, periods).value;
    var p := w.plans[plan];
    FloorReaches(p.price, p.period, 1);
    PrefundPositive(p.price, periods);
    DepositHere(w.bank.(vaults := w.bank.vaults[k := 0]), Prefund, k, ata, deposited);
  }

  lemma PrefundPositive(price: int, periods: int)
    requires price > 0 && periods >= 1
    ensures price * periods > 0
  {
  }

  lemma ChargeKeeps(w: World, now: I64, k: SubKey, plan: PlanKey, ata: Key, g: bool)
    requires ChargeStep(w, now, k, plan, ata, g).Ok? && KeyOk(w, k)
    ensures KeyOk(ChargeStep(w, now, k, plan, ata, g).value, k)
  {
    hide Withdraw, BookOf, Accrued, NextChargeAt;
    var unlocked := ChargeGuards(w, now, k, plan, ata, g).value;
    WithdrawHere(w.bank, Purpose.Charge, k, ata, unlocked - w.subs[k].withdrawn);
  }

  lemma TopUpKeeps(w: World, now: I64, subscriber: Key, k: SubKey, ata: Key, amount: U64, g: bool)
    requires TopUpStep(w, now, subscriber, k, ata, amount, g).Ok? && KeyOk(w, k)
    ensures KeyOk(TopUpStep(w, now, subscriber, k, ata, amount, g).value, k)
  {
    hide Deposit, BookOf;
    DepositHere(w.bank, Purpose.TopUp, k, ata, amount);
  }

  lemma SettleKeeps(w: World, now: I64, f: Key, k: SubKey, id: U64, ata: Key, amount: U64)
    requires SettleUsageStep(w, now, f, k, id, ata, amount).Ok? && KeyOk(w, k)
    ensures KeyOk(SettleUsageStep(w, now, f, k, id, ata, amount).value, k)
  {
    hide Withdraw, BookOf, Accrued;
    WithdrawHere(w.bank, Settle(id), k, ata, amount);
  }

  lemma DonateKeeps(w: World, owner: Key, from: Key, k: SubKey, amount: U64)
    requires DonateStep(w, owner, from, k, amount).Ok? && KeyOk(w, k)
    ensures KeyOk(DonateStep(w, owner, from, k, amount).value, k)
  {
    hide Deposit, BookOf;
    DepositHere(w.bank, Donation, k, from, amount);
  }

  /** Both payouts of a cancellation: the vault loses them and the books gain them, and nothing else. */
  lemma PayoutHere(b: Bank, k: SubKey, mAta: Key, sAta: Key, claim: U64, refund: U64)
    requires k in b.vaults && mAta in b.accounts && sAta in b.accounts && WithdrawAny(b, Claim, k, mAta, claim).Ok?
    requires WithdrawAny(WithdrawAny(b, Claim, k, mAta, claim).value, Refund, k, sAta, refund).Ok?
    ensures var b2 := WithdrawAny(WithdrawAny(b, Claim, k, mAta, claim).value, Refund, k, sAta, refund).value;
      && k in b2.vaults && b2.vaults[k] == b.vaults[k] - claim - refund
      && var before := BookOf(b.journal, k);
         BookOf(b2.journal, k) == before.(claimed := before.claimed + claim, refunded := before.refunded + refund)
  {
    WithdrawMoves(b, Claim, k, mAta, claim, k);
    hide Withdraw, BookOf;
    if claim > 0 { WithdrawHere(b, Claim, k, mAta, claim); }
    var b1 := WithdrawAny(b, Claim, k, mAta, claim).value;
    if refund > 0 { WithdrawHere(b1, Refund, k, sAta, refund); }
  }

  lemma CancelKeeps(w: World, now: I64, signer: Key, k: SubKey, rentTo: Key, mAta: Key, sAta: Key, g: bool, p: bool)
    requires CancelStep(w, now, signer, k, rentTo, mAta, sAta, g, p).Ok? && KeyOk(w, k)
    ensures KeyOk(CancelStep(w, now, signer, k, rentTo, mAta, sAta, g, p).value, k)
  {
    hide WithdrawAny, BookOf, Accrued;
    var unlocked := CancelGuards(w, now, signer, k, rentTo, mAta, sAta, g, p).value;
    var claim, refund := unlocked - w.subs[k].withdrawn, w.subs[k].deposited - unlocked;
    WithdrawMoves(w.bank, Claim, k, mAta, claim, k);
    PayoutHere(w.bank, k, mAta, sAta, claim, refund);
  }

  lemma PauseResumeKeeps(w: World, now: I64, merchant: Key, k: SubKey)
    requires KeyOk(w, k)
    ensures PauseStep(w, now, merchant, k).Ok? ==> KeyOk(PauseStep(w, now, merchant, k).value, k)
    ensures ResumeStep(w, now, merchant, k).Ok? ==> KeyOk(ResumeStep(w, now, merchant, k).value, k)
  {
    hide BookOf;
  }

  lemma CleanupKeeps(w: World, subscriber: Key, k: SubKey)
    requires CleanupStep(w, subscriber, k).Ok? && KeyOk(w, k)
    ensures KeyOk(CleanupStep(w, subscriber, k).value, k)
  {
    hide BookOf;
  }

  lemma AlikeKeeps(w: World, w': World, k: SubKey)
    requires KeyOk(w, k) && Alike(w, w', k) && PlansGrow(w, w')
    ensures KeyOk(w', k)
  {
    hide BookOf;
  }

  lemma TargetKeeps(w: World, now: I64, ix: Instruction, k: SubKey)
    requires Step(w, now, ix).Ok? && Target(ix) == Some(k) && KeyOk(w, k)
    requires forall pk :: pk in w.plans ==> PlanOk(pk, w.plans[pk])
    ensures KeyOk(Step(w, now, ix).value, k)
  {
    hide BookOf, KeyOk, PlanOk, ChargeStep, TopUpStep, CancelStep, SettleUsageStep, PauseStep, ResumeStep, CleanupStep;
    match ix
    case Subscribe(s, plan, ata, n) => SubscribeKeeps(w, now, s, plan, ata, n);
    case ChargeIx(_, plan, ata, g) => ChargeKeeps(w, now, k, plan, ata, g);
    case TopUpIx(s, _, ata, amount, g) => TopUpKeeps(w, now, s, k, ata, amount, g);
    case Pause(m, _) => PauseResumeKeeps(w, now, m, k);
    case Resume(m, _) => PauseResumeKeeps(w, now, m, k);
    case Cancel(signer, _, rentTo, mAta, sAta, g, p) => CancelKeeps(w, now, signer, k, rentTo, mAta, sAta, g, p);
    case Cleanup(s, _) => CleanupKeeps(w, s, k);
    case OpenSession(_, _, _, _, _) => AlikeKeeps(w, Step(w, now, ix).value, k);
    case CloseSession(_, _, _) => AlikeKeeps(w, Step(w, now, ix).value, k);
    case SettleUsage(f, _, id, ata, amount) => SettleKeeps(w, now, f, k, id, ata, amount);
    case Donate(owner, from, _, amount) => DonateKeeps(w, owner, from, k, amount);
  }

  lemma PlansKeep(w: World, now: I64, ix: Instruction, pk: PlanKey)
    requires Step(w, now, ix).Ok? && pk in Step(w, now, ix).value.plans
    requires pk in w.plans ==> PlanOk(pk, w.plans[pk])
    ensures PlanOk(pk, Step(w, now, ix).value.plans[pk])
  {
    hide BookOf, Withdraw, WithdrawAny, Deposit, Transfer, ChargeGuards, CancelGuards, SettleGuards, SubscribeGuards;
  }

  /** Only the three session instructions write session records. */
  lemma SessionsUntouched(w: World, now: I64, ix: Instruction)
    requires Step(w, now, ix).Ok? && !ix.OpenSession? && !ix.CloseSession? && !ix.SettleUsage?
    ensures Step(w, now, ix).value.sessions == w.sessions
  {
    hide Withdraw, WithdrawAny, Deposit, Transfer, ChargeGuards, CancelGuards, SubscribeGuards, NextChargeAt, Recovered,
         OpenSessionStep, CloseSessionStep, SettleUsageStep, Elapsed, Unlocked;
  }

  /** Every session of another subscription is the same in both worlds. */
  ghost predicate SessionsContained(w: World, w': World, target: Option<SubKey>) {
    forall sk: SessionKey :: target != Some(sk.sub) ==> SameAt(w.sessions, w'.sessions, sk)
  }

  /**
   * Isolation and conservation, for any accounts and any clock: an instruction on one subscription leaves
   * every other subscription's record, vault, satellites, sessions and books untouched, never edits a plan, never
   * opens, closes or hands over a token account, and neither creates nor destroys tokens.
   */
  lemma Isolation(w: World, now: I64, ix: Instruction, j: SubKey)
    requires Step(w, now, ix).Ok?
    ensures Contained(w, Step(w, now, ix).value, Target(ix), j)
    ensures SessionsContained(w, Step(w, now, ix).value, Target(ix))
  {
    hide Contained, CreatePlanStep, SubscribeStep, ChargeStep, TopUpStep, PauseStep, ResumeStep, CancelStep, CleanupStep,
         TokenTransferStep, Withdraw, Elapsed, Unlocked;
    StepContained(w, now, ix, j);
    if !ix.OpenSession? && !ix.CloseSession? && !ix.SettleUsage? { SessionsUntouched(w, now, ix); }
  }

  lemma SessionsKeep(w: World, now: I64, ix: Instruction, sk: SessionKey)
    requires Step(w, now, ix).Ok? && sk in Step(w, now, ix).value.sessions
    requires sk in w.sessions ==> SessionOk(w, sk, w.sessions[sk])
    requires ix.OpenSession? ==> KeyOk(w, ix.sub)
    requires PlansGrow(w, Step(w, now, ix).value)
    ensures SessionOk(Step(w, now, ix).value, sk, Step(w, now, ix).value.sessions[sk])
  {
    hide BookOf, Withdraw, EscrowOk, SatellitesOk, BookOk, Elapsed, Unlocked, CreatePlanStep, SubscribeStep, ChargeStep,
         TopUpStep, PauseStep, ResumeStep, CancelStep, CleanupStep, TokenTransferStep;
    if !ix.OpenSession? && !ix.CloseSession? && !ix.SettleUsage? { SessionsUntouched(w, now, ix); }
  }

  /** The invariant survives every instruction at every clock reading, even one that runs backwards. */
  lemma Preservation(w: World, now: I64, ix: Instruction)
    requires Inv(w) && Step(w, now, ix).Ok?
    ensures Inv(Step(w, now, ix).value)
  {
    hide Step, KeyOk, PlanOk, SessionOk, Supply, PlansGrow;
    var w' := Step(w, now, ix).value;
    StepContained(w, now, ix, SubKey(0, PlanKey(0, 0)));
    forall pk | pk in w'.plans
      ensures PlanOk(pk, w'.plans[pk])
    {
      PlansKeep(w, now, ix, pk);
    }
    forall k
      ensures KeyOk(w', k)
    {
      StepContained(w, now, ix, k);
      assert KeyOk(w, k);
      if Target(ix) == Some(k) { TargetKeeps(w, now, ix, k); } else { AlikeKeeps(w, w', k); }
    }
    forall sk | sk in w'.sessions
      ensures SessionOk(w', sk, w'.sessions[sk])
    {
      assert ix.OpenSession? ==> KeyOk(w, ix.sub);
      SessionsKeep(w, now, ix, sk);
    }
  }

  lemma FreshOk(accounts: map<Key, TokenAccount>)
    requires Total(Amounts(accounts)) <= U64_MAX
    ensures Inv(Fresh(accounts))
  {
    assert Escrows(map[]) == map[];
    TotalBounds(Amounts(accounts), 0);
  }
}
