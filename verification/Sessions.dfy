/** The per-session ledgers of the usage writer, over whole histories. */
module Sessions {
  import opened Integers
  import opened State
  import opened StreamMath
  import opened Handlers
  import opened Books
  import opened Invariants
  import opened Runs
  import opened Settlement
  import opened Effects
  import Liveness

  /** What the history has settled through session `sk` since the record at its address appeared. */
  function SettledSince(r: Run, sk: SessionKey): int {
    match r
    case Genesis(_) => 0
    case Then(earlier, now, ix) =>
      if sk !in After(earlier).sessions || sk !in After(r).sessions then 0
      else SettledSince(earlier, sk) + SettledBy(After(earlier), now, ix, sk)
  }

  /** The tokens the journal says left the escrow through session address `sk`, whichever session was open there. */
  function SettledThrough(j: Journal, sk: SessionKey): int {
    match j
    case Blank => 0
    case Logged(earlier, m) =>
      SettledThrough(earlier, sk) + if m.Escrow? && m.sub == sk.sub && m.purpose == Settle(sk.sessionId) then m.amount else 0
  }

  /** What had been settled through the address when its current session was opened. */
  function SettledBefore(r: Run, sk: SessionKey): int {
    match r
    case Genesis(_) => 0
    case Then(earlier, _, _) =>
      if sk !in After(earlier).sessions then SettledThrough(After(r).bank.journal, sk) else SettledBefore(earlier, sk)
  }

  /** What one instruction settles through session `sk`. */
  function SettledBy(w: World, now: I64, ix: Instruction, sk: SessionKey): int {
    if ix.SettleUsage? && SessionKey(ix.sub, ix.sessionId) == sk && Step(w, now, ix).Ok? then ix.amount else 0
  }

  lemma UsageStep(w: World, now: I64, ix: Instruction, sk: SessionKey)
    requires Step(w, now, ix).Ok? && sk in Step(w, now, ix).value.sessions
    ensures var w' := Step(w, now, ix).value;
      w'.sessions[sk].usage == if sk in w.sessions then w.sessions[sk].usage + SettledBy(w, now, ix, sk) else 0
  {
    hide Withdraw, Elapsed, Unlocked, CreatePlanStep, SubscribeStep, ChargeStep, TopUpStep, PauseStep, ResumeStep, CancelStep,
         CleanupStep, TokenTransferStep;
    if !ix.OpenSession? && !ix.CloseSession? && !ix.SettleUsage? { SessionsUntouched(w, now, ix); }
  }

  /**
   * Session ledger: in every reachable state a stored session is Open (the Settling lock never survives its
   * instruction), its usage is exactly the tokens that left the escrow through it since it was opened, which is
   * exactly what its facilitator asked to settle, and within its cap, and it routes to its plan's merchant account
   * even if it outlived an earlier subscription at its address.
   */
  lemma {:induction false} SessionLedger(r: Run, sk: SessionKey)
    requires Funded(r)
    ensures sk in After(r).sessions ==>
      var p, w := After(r).sessions[sk], After(r);
      && p.state.Open? && p.usage == SettledSince(r, sk)
      && p.usage == SettledThrough(w.bank.journal, sk) - SettledBefore(r, sk)
      && (p.reservationCap > 0 ==> p.usage <= p.reservationCap)
      && sk.sub.plan in w.plans && p.merchantAta == w.plans[sk.sub.plan].merchantAta
      && (sk.sub in w.subs ==> p.merchantAta == w.subs[sk.sub].merchantAta)
  {
    SessionAt(r, sk);
    UsageIsSettled(r, sk);
    TokensAreSettled(r, sk);
  }

  lemma {:induction false} SessionAt(r: Run, sk: SessionKey)
    requires Funded(r)
    ensures KeyOk(After(r), sk.sub)
    ensures sk in After(r).sessions ==> SessionOk(After(r), sk, After(r).sessions[sk])
  {
    hide Step, KeyOk, SessionOk;
    RunInvariant(r);
    assert KeyOk(After(r), sk.sub);
  }

  /** The journal grows by what an instruction settles, and by nothing else of this session. */
  lemma StepSettles(w: World, now: I64, ix: Instruction, sk: SessionKey)
    requires Step(w, now, ix).Ok?
    ensures SettledThrough(Step(w, now, ix).value.bank.journal, sk)
         == SettledThrough(w.bank.journal, sk) + SettledBy(w, now, ix, sk)
  {
    hide SubscribeStep, ChargeStep, TopUpStep, CancelStep, SettleUsageStep, UnlockedAt, CreatePlanStep, PauseStep, ResumeStep;
    if ix.CreatePlan? || ix.Pause? || ix.Resume? { PausesKeepJournal(w, now, ix); }
    match ix
    case Subscribe(s, plan, ata, n) => SubscribeExact(w, now, s, plan, ata, n);
    case ChargeIx(k, plan, ata, g) => ChargeExact(w, now, k, plan, ata, g);
    case TopUpIx(s, k, ata, amount, g) => TopUpExact(w, now, s, k, ata, amount, g);
    case Cancel(signer, k, rentTo, mAta, sAta, g, p) => CancelSettles(w, now, signer, k, rentTo, mAta, sAta, g, p, sk);
    case SettleUsage(f, k, id, ata, amount) => SettleUsageExact(w, now, f, k, id, ata, amount);
    case _ =>
  }

  lemma CancelSettles(w: World, now: I64, signer: Key, k: SubKey, rentTo: Key, mAta: Key, sAta: Key, g: bool, p: bool,
                      sk: SessionKey)
    requires CancelStep(w, now, signer, k, rentTo, mAta, sAta, g, p).Ok?
    ensures SettledThrough(CancelStep(w, now, signer, k, rentTo, mAta, sAta, g, p).value.bank.journal, sk)
         == SettledThrough(w.bank.journal, sk)
  {
    hide CancelStep, UnlockedAt, EndOfStream;
    CancelExact(w, now, signer, k, rentTo, mAta, sAta, g, p);
  }

  lemma PausesKeepJournal(w: World, now: I64, ix: Instruction)
    requires Step(w, now, ix).Ok? && (ix.CreatePlan? || ix.Pause? || ix.Resume?)
    ensures Step(w, now, ix).value.bank == w.bank
  {
    hide Elapsed;
  }

  lemma {:induction false} TokensAreSettled(r: Run, sk: SessionKey)
    ensures sk in After(r).sessions ==> SettledSince(r, sk) == SettledThrough(After(r).bank.journal, sk) - SettledBefore(r, sk)
  {
    hide Step, SettledThrough, SettledBy;
    match r
    case Genesis(_) =>
    case Then(earlier, now, ix) =>
      TokensAreSettled(earlier, sk);
      if Step(After(earlier), now, ix).Ok? { StepSettles(After(earlier), now, ix, sk); }
      else { NothingSettled(After(earlier), now, ix, sk); }
  }

  lemma NothingSettled(w: World, now: I64, ix: Instruction, sk: SessionKey)
    requires Step(w, now, ix).Err?
    ensures SettledBy(w, now, ix, sk) == 0
  {
    hide Step;
  }

  lemma {:induction false} UsageIsSettled(r: Run, sk: SessionKey)
    ensures sk in After(r).sessions ==> After(r).sessions[sk].usage == SettledSince(r, sk)
  {
    match r
    case Genesis(_) =>
    case Then(earlier, now, ix) =>
      UsageIsSettled(earlier, sk);
      UsageIsSettledStep(earlier, now, ix, sk);
  }

  lemma {:induction false} UsageIsSettledStep(earlier: Run, now: I64, ix: Instruction, sk: SessionKey)
    requires sk in After(earlier).sessions ==> After(earlier).sessions[sk].usage == SettledSince(earlier, sk)
    ensures var r := Then(earlier, now, ix);
      sk in After(r).sessions ==> After(r).sessions[sk].usage == SettledSince(r, sk)
  {
    hide Step;
    var r := Then(earlier, now, ix);
    if Step(After(earlier), now, ix).Ok? && sk in After(r).sessions {
      UsageStep(After(earlier), now, ix, sk);
    }
  }

  /** A session can be closed by the subscriber exactly while a parent record exists, whatever state that is in. */
  lemma {:induction false} ClosableWhileParentExists(r: Run, now: I64, sk: SessionKey)
    requires Funded(r) && sk in After(r).sessions
    ensures Step(After(r), now, CloseSession(sk.sub.subscriber, sk.sub, sk.sessionId)).Ok? <==> sk.sub in After(r).subs
  {
    hide After, BookOf;
    SessionAt(r, sk);
  }

  /** What the caller of `settle_usage` must get right. */
  predicate WellFormedSettle(w: World, now: int, facilitator: Key, k: SubKey, id: U64, ata: Key, amount: U64) {
    && IsActive(w, k) && SessionKey(k, id) in w.sessions
    && var s, p := w.subs[k], w.sessions[SessionKey(k, id)];
    && facilitator == p.facilitator && ata == p.merchantAta && ata in w.bank.accounts
    && amount > 0 && p.usage + amount <= (if p.reservationCap > 0 then p.reservationCap else U64_MAX)
    && s.period > 0 && s.streamStart <= now
    && s.withdrawn + amount <= Unlocked(now - s.streamStart, s.price, s.period, s.deposited)
  }

  lemma SettleIffAt(w: World, now: I64, f: Key, k: SubKey, id: U64, ata: Key, amount: U64, active: int)
    requires KeyOk(w, k) && Timely(w, k, now, active) && Supply(w.bank) <= U64_MAX
    requires SessionKey(k, id) in w.sessions ==> SessionOk(w, SessionKey(k, id), w.sessions[SessionKey(k, id)])
    ensures Step(w, now, SettleUsage(f, k, id, ata, amount)).Ok? <==> WellFormedSettle(w, now, f, k, id, ata, amount)
  {
    hide BookOf, Accrued, Supply;
    if WellFormedSettle(w, now, f, k, id, ata, amount) {
      Liveness.RoomFor(w.bank, k, ata);
    }
  }

  /**
   * Exactly when a usage settlement goes through in a reachable state: an Active parent, the right signer
   * and an existing account, an amount within the cap and within what the stream has unlocked above both writers' withdrawals.
   */
  lemma {:induction false} SettleIff(r: Run, now: I64, f: Key, k: SubKey, id: U64, ata: Key, amount: U64)
    requires Funded(r) && Forward(r) && Clock(r) <= now
    ensures Step(After(r), now, SettleUsage(f, k, id, ata, amount)).Ok?
       <==> WellFormedSettle(After(r), now, f, k, id, ata, amount)
  {
    hide Step, KeyOk, Timely, SessionOk, WellFormedSettle;
    Reached(r, k, now);
    SessionAt(r, SessionKey(k, id));
    SettleIffAt(After(r), now, f, k, id, ata, amount, ActiveBy(r, k, now));
  }

  /**
   * Sessions outlive their parent: a session still open when its address is subscribed again is there
   * afterwards, usage and cap unchanged, and its facilitator can settle against the new escrow exactly when the
   * new stream has unlocked the amount, the old cap still has room for it and the merchant's account exists.
   */
  lemma {:induction false} SessionSurvivesResubscribe(r: Run, now: I64, k: SubKey, ata: Key, periods: U8,
                                                         id: U64, later: I64, amount: U64)
    requires Funded(r) && Forward(r) && Clock(r) <= now <= later && SessionKey(k, id) in After(r).sessions
    requires Step(After(r), now, Subscribe(k.subscriber, k.plan, ata, periods)).Ok?
    ensures var r' := Then(r, now, Subscribe(k.subscriber, k.plan, ata, periods));
      var p := After(r).sessions[SessionKey(k, id)];
      && SessionKey(k, id) in After(r').sessions && After(r').sessions[SessionKey(k, id)] == p
      && IsActive(After(r'), k) && After(r').subs[k].period > 0 && After(r').subs[k].streamStart == now
      && var s := After(r').subs[k];
         Step(After(r'), later, SettleUsage(p.facilitator, k, id, p.merchantAta, amount)).Ok? <==>
           && p.merchantAta in After(r').bank.accounts
           && 0 < amount <= Unlocked(later - now, s.price, s.period, s.deposited)
           && p.usage + amount <= (if p.reservationCap > 0 then p.reservationCap else U64_MAX)
  {
    hide Step, Unlocked;
    var ix := Subscribe(k.subscriber, k.plan, ata, periods);
    var p := After(r).sessions[SessionKey(k, id)];
    SubscribeSpares(After(r), now, k, ata, periods);
    SettleIff(Then(r, now, ix), later, p.facilitator, k, id, p.merchantAta, amount);
  }

  lemma SubscribeSpares(w: World, now: I64, k: SubKey, ata: Key, periods: U8)
    requires Step(w, now, Subscribe(k.subscriber, k.plan, ata, periods)).Ok?
    ensures var w' := Step(w, now, Subscribe(k.subscriber, k.plan, ata, periods)).value;
      && w'.sessions == w.sessions && IsActive(w', k)
      && w'.subs[k].streamStart == now && w'.subs[k].withdrawn == 0 && w'.subs[k].period > 0
  {
    hide Deposit;
  }
}
