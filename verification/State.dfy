/** The accounts of the program, keyed by their seeds, and the token movements it has caused. */
module State {
  import opened Integers

  /** A wallet, mint or token-account address. Program addresses never sign, so they need no key of their own. */
  type Key = nat

  /** The one mint `create_plan` accepts. */
  const USDC_MINT: Key := 0

  /** Seven days. */
  const GRACE_DURATION: I64 := 7 * 24 * 60 * 60

  datatype PlanKey = PlanKey(merchant: Key, planId: U64)
  datatype SubKey = SubKey(subscriber: Key, plan: PlanKey)
  datatype SessionKey = SessionKey(sub: SubKey, sessionId: U64)

  datatype Plan = Plan(merchant: Key, planId: U64, price: U64, period: I64, tokenMint: Key, merchantAta: Key)

  datatype SubscriptionState = Active | Paused | GracePeriod | Exhausted | Cancelled

  datatype Subscription = Subscription(
    nextChargeAt: I64,
    subscriber: Key,
    plan: PlanKey,
    price: U64,
    period: I64,
    tokenMint: Key,
    merchant: Key,
    merchantAta: Key,
    state: SubscriptionState,
    createdAt: I64,
    lastChargeAt: I64,
    deposited: U64,
    withdrawn: U64,
    ratePerSecond: U64,
    streamStart: I64)

  datatype GracedSubscription = GracedSubscription(subscription: SubKey, enteredGraceAt: I64, graceUntil: I64)

  datatype PausedSubscription = PausedSubscription(subscription: SubKey, pausedAt: I64)

  datatype PaySessionState = Open | Settling | Closed

  datatype PaySession = PaySession(
    subscription: SubKey,
    merchant: Key,
    merchantAta: Key,
    facilitator: Key,
    sessionId: U64,
    openedAt: I64,
    lastSettleAt: I64,
    usage: U64,
    reservationCap: U64,
    state: PaySessionState)

  datatype TokenAccount = TokenAccount(owner: Key, amount: U64)

  /** Why tokens entered or left an escrow vault. */
  datatype Purpose = Prefund | TopUp | Donation | Charge | Settle(sessionId: U64) | Claim | Refund {
    predicate Incoming() {
      Prefund? || TopUp? || Donation?
    }

    predicate ToMerchant() {
      Charge? || Settle? || Claim?
    }
  }

  /**
   * One SPL transfer: between a token account, which `owner` owned at the time, and the vault of `sub`, or
   * between two token accounts.
   */
  datatype Movement =
    | Escrow(purpose: Purpose, sub: SubKey, account: Key, owner: Key, amount: U64)
    | Direct(from: Key, to: Key, amount: U64)

  /** Every transfer so far, the latest on top. */
  datatype Journal = Blank | Logged(earlier: Journal, last: Movement)

  /** The token program's side: token accounts, escrow vaults, and every transfer between them. */
  datatype Bank = Bank(accounts: map<Key, TokenAccount>, vaults: map<SubKey, U64>, journal: Journal)

  /** Everything the instructions read and write. */
  datatype World = World(
    plans: map<PlanKey, Plan>,
    subs: map<SubKey, Subscription>,
    graced: map<SubKey, GracedSubscription>,
    paused: map<SubKey, PausedSubscription>,
    sessions: map<SessionKey, PaySession>,
    bank: Bank)

  /** A cluster on which the program has just been deployed. */
  function Fresh(accounts: map<Key, TokenAccount>): World {
    World(map[], map[], map[], map[], map[], Bank(accounts, map[], Blank))
  }

  /**
   * Every instruction of the program, with its signer, and what wallets can do with the token program alone:
   * pay each other, send tokens to a vault, and open, close or hand over token accounts.
   */
  datatype Instruction =
    | CreatePlan(merchant: Key, planId: U64, price: U64, period: I64, merchantAta: Key)
    | Subscribe(subscriber: Key, plan: PlanKey, subscriberAta: Key, periodsToPrefund: U8)
    | ChargeIx(sub: SubKey, plan: PlanKey, merchantAta: Key, attachGrace: bool)
    | TopUpIx(subscriber: Key, sub: SubKey, subscriberAta: Key, amount: U64, attachGrace: bool)
    | Pause(merchant: Key, sub: SubKey)
    | Resume(merchant: Key, sub: SubKey)
    | Cancel(signer: Key, sub: SubKey, rentTo: Key, merchantAta: Key, subscriberAta: Key, attachGrace: bool, attachPaused: bool)
    | Cleanup(subscriber: Key, sub: SubKey)
    | OpenSession(subscriber: Key, sub: SubKey, sessionId: U64, facilitator: Key, reservationCap: U64)
    | CloseSession(subscriber: Key, sub: SubKey, sessionId: U64)
    | SettleUsage(facilitator: Key, sub: SubKey, sessionId: U64, merchantAta: Key, amount: U64)
    | TokenTransfer(owner: Key, from: Key, to: Key, amount: U64)
    | Donate(owner: Key, from: Key, sub: SubKey, amount: U64)
    | OpenTokenAccount(account: Key, owner: Key)
    | CloseTokenAccount(owner: Key, account: Key)
    | AssignTokenAccount(owner: Key, account: Key, newOwner: Key)
}
