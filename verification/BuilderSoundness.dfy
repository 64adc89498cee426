/** The lists of the composite builders run: from the state they were built from to the state they promise. */
module BuilderSoundness {
  import opened Integers
  import opened Outcomes
  import opened State
  import opened StreamMath
  import opened Handlers
  import opened Books
  import opened Invariants
  import opened Runs
  import opened Settlement
  import opened Lifecycle
  import opened Liveness
  import opened Views
  import opened Builders

  // ----- transactions -----

  lemma {:induction false} TransactAppend(w: World, now: I64, a: seq<Instruction>, b: seq<Instruction>)
    ensures Transact(w, now, a + b)
         == match Transact(w, now, a) case Ok(w1) => Transact(w1, now, b) case Err(e) => Err(e)
    decreases |a|
  {
    hide Step;
    if a == [] {
      assert a + b == b;
    } else {
      assert (a + b)[0] == a[0] && (a + b)[1..] == a[1..] + b;
      if Step(w, now, a[0]).Ok? {
        TransactAppend(Step(w, now, a[0]).value, now, a[1..], b);
      }
    }
  }

  lemma TransactOne(w: World, now: I64, ix: Instruction)
    ensures Transact(w, now, [ix]) == Step(w, now, ix)
  {
    hide Step;
    assert [ix][1..] == [];
    if Step(w, now, ix).Ok? {
      assert Transact(Step(w, now, ix).value, now, []) == Step(w, now, ix);
    }
  }

  /** A run followed by the instructions of one transaction. */
  function Appended(r: Run, now: I64, ixs: seq<Instruction>): Run
    decreases |ixs|
  {
    if ixs == [] then r else Appended(Then(r, now, ixs[0]), now, ixs[1..])
  }

  /** A committed transaction is a stretch of the run, so every theorem about runs covers transactions too. */
  lemma {:induction false} TransactionsAreRuns(r: Run, now: I64, ixs: seq<Instruction>)
    requires Forward(r) && Clock(r) <= now && Transact(After(r), now, ixs).Ok?
    ensures var r' := Appended(r, now, ixs);
      && After(r') == Transact(After(r), now, ixs).value
      && Forward(r') && Origin(r') == Origin(r) && (ixs != [] ==> Clock(r') == now)
    decreases |ixs|
  {
    hide Step;
    if ixs != [] {
      TransactionsAreRuns(Then(r, now, ixs[0]), now, ixs[1..]);
    }
  }

  // ----- closing the sessions -----

  /** The RPC node returned each session of `k` once, and nothing else. */
  ghost predicate Lists(returned: seq<Listed>, w: World, k: SubKey) {
    && (forall i, j :: 0 <= i < j < |returned| ==> returned[i].address != returned[j].address)
    && (forall i :: 0 <= i < |returned| ==> ListedIn(returned[i], w, k))
    && (forall sk :: sk in w.sessions && sk.sub == k ==> exists i :: 0 <= i < |returned| && returned[i].address == sk)
  }

  ghost predicate ListedIn(l: Listed, w: World, k: SubKey) {
    l.address in w.sessions && l.session == w.sessions[l.address] && l.address.sub == k
  }

  /** In a reachable world every session returned is alive and derives its own address. */
  lemma {:induction false} AllAlive(returned: seq<Listed>, w: World, k: SubKey)
    requires forall i :: 0 <= i < |returned| ==> ListedIn(returned[i], w, k)
    requires forall sk :: sk in w.sessions ==> SessionOk(w, sk, w.sessions[sk])
    ensures Alive(returned, k) == returned
  {
    if returned != [] {
      var last := returned[|returned| - 1];
      AllAlive(returned[..|returned| - 1], w, k);
      assert ListedIn(last, w, k) && SessionOk(w, last.address, w.sessions[last.address]);
      assert returned == returned[..|returned| - 1] + [last];
    }
  }

  function Removed(w: World, gone: set<SessionKey>): World {
    w.(sessions := w.sessions - gone)
  }

  ghost predicate Closable(w: World, k: SubKey) {
    && k in w.subs && w.subs[k].subscriber == k.subscriber
    && forall sk :: sk in w.sessions ==> SessionOk(w, sk, w.sessions[sk])
  }

  /** One more close, after those of `gone`. */
  lemma CloseRuns(w: World, now: I64, gone: set<SessionKey>, last: Listed, k: SubKey)
    requires Closable(w, k) && ListedIn(last, w, k) && last.address !in gone
    ensures last.address == SessionKey(k, last.session.sessionId)
    ensures Step(Removed(w, gone), now, CloseSession(k.subscriber, k, last.session.sessionId))
         == Ok(Removed(w, gone + {last.address}))
  {
    assert SessionOk(w, last.address, w.sessions[last.address]);
    assert w.sessions - gone - {last.address} == w.sessions - (gone + {last.address});
  }

  /** The closes of the listed sessions all go through and remove exactly those sessions. */
  lemma {:induction false} ClosesRun(w: World, now: I64, returned: seq<Listed>, k: SubKey)
    requires Closable(w, k)
    requires forall i, j :: 0 <= i < j < |returned| ==> returned[i].address != returned[j].address
    requires forall i :: 0 <= i < |returned| ==> ListedIn(returned[i], w, k)
    ensures Transact(w, now, Closes(returned, k, k.subscriber))
         == Ok(Removed(w, set i | 0 <= i < |returned| :: returned[i].address))
  {
    hide Step, Closable, ListedIn;
    var gone := set i | 0 <= i < |returned| :: returned[i].address;
    if returned == [] {
      assert w.sessions - gone == w.sessions;
    } else {
      var front, last := returned[..|returned| - 1], returned[|returned| - 1];
      var before := set i | 0 <= i < |front| :: front[i].address;
      assert gone == before + {last.address} by { GoneSplits(returned); }
      ClosesRun(w, now, front, k);
      CloseRuns(w, now, before, last, k);
      var ix := CloseSession(k.subscriber, k, last.session.sessionId);
      TransactAppend(w, now, Closes(front, k, k.subscriber), [ix]);
      TransactOne(Removed(w, before), now, ix);
    }
  }

  lemma GoneSplits(returned: seq<Listed>)
    requires returned != []
    ensures var front := returned[..|returned| - 1];
      (set i | 0 <= i < |returned| :: returned[i].address)
      == (set i | 0 <= i < |front| :: front[i].address) + {returned[|returned| - 1].address}
  {
    var front := returned[..|returned| - 1];
    var gone, before := set i | 0 <= i < |returned| :: returned[i].address, set i | 0 <= i < |front| :: front[i].address;
    forall a
      ensures a in gone <==> a in before + {returned[|returned| - 1].address}
    {
      if a in gone {
        var i :| 0 <= i < |returned| && returned[i].address == a;
        if i < |front| { assert front[i].address == a; }
      }
      if a in before {
        var i :| 0 <= i < |front| && front[i].address == a;
        assert returned[i].address == a;
      }
      assert returned[|returned| - 1].address in gone;
    }
  }

  // ----- subscribing -----

  lemma SubscribeSucceeds(w: World, now: I64, k: SubKey, ata: Key, periods: U8)
    requires SubscribeGuardsHold(w, now, k.plan, periods) && k !in w.subs && k !in w.bank.vaults
    requires CanPay(w.bank, ata, k.subscriber, w.plans[k.plan].price * periods)
    ensures Step(w, now, Subscribe(k.subscriber, k.plan, ata, periods)).Ok?
    ensures var w' := Step(w, now, Subscribe(k.subscriber, k.plan, ata, periods)).value;
      && k in w'.subs && w'.subs[k].state.Active? && w'.subs[k].streamStart == now
      && w'.subs[k].deposited == w.plans[k.plan].price * periods && w'.subs[k].withdrawn == 0
      && w'.subs == w.subs[k := w'.subs[k]]
      && w'.sessions == w.sessions && w'.graced == w.graced && w'.paused == w.paused
      && (forall j :: j != k && j in w'.bank.vaults ==> j in w.bank.vaults)
  {
    assert SubKey(k.subscriber, k.plan) == k;
    FloorReaches(w.plans[k.plan].price, w.plans[k.plan].period, 1);
  }

  // ----- cancel, cleanup, subscribe -----

  /** What a cancellation at `now` hands back to the subscriber. */
  function RefundAt(w: World, k: SubKey, now: int): int
    requires k in w.subs
  {
    var s := w.subs[k];
    if s.period > 0 && (s.state.Paused? ==> k in w.paused) && (s.state.GracePeriod? ==> k in w.graced)
       && StreamEnd(w, k, now) >= s.streamStart
    then s.deposited - Unlocked(StreamEnd(w, k, now) - s.streamStart, s.price, s.period, s.deposited)
    else 0
  }

  function CancelOf(w: World, k: SubKey, ata: Key): Instruction
    requires k in w.subs
  {
    var s := w.subs[k];
    Cancel(k.subscriber, k, k.subscriber, s.merchantAta, ata, s.state.GracePeriod?, s.state.Paused?)
  }

  /** `k` is gone, its satellites and vault too, `k'` streams from `now`, and nothing else about sessions changed. */
  ghost predicate Migrated(w: World, w': World, k: SubKey, k': SubKey, now: int, prefund: int) {
    && k' in w'.subs && w'.subs[k'].state.Active? && w'.subs[k'].streamStart == now
    && w'.subs[k'].deposited == prefund && w'.subs[k'].withdrawn == 0
    && (k != k' ==> k !in w'.subs && k !in w'.bank.vaults)
    && k !in w'.graced && k !in w'.paused
    && w'.sessions == w.sessions
  }

  /** What a migration needs of the old subscription: it is live, its merchant's account exists, its vault is undisturbed. */
  predicate Cancellable(w: World, k: SubKey) {
    k in w.subs && Live(w.subs[k].state) && w.subs[k].merchantAta in w.bank.accounts && Undisturbed(w, k)
  }

  /** The subscriber's own cancellation runs exactly then. */
  lemma CancelRuns(w: World, now: I64, k: SubKey, ata: Key, active: int)
    requires KeyOk(w, k) && Timely(w, k, now, active) && now >= 0 && Supply(w.bank) <= U64_MAX && k in w.subs
    requires ata in w.bank.accounts && w.bank.accounts[ata].owner == k.subscriber
    ensures Step(w, now, CancelOf(w, k, ata)).Ok? <==> Cancellable(w, k)
  {
    hide BookOf, Supply, Step, Timely, Undisturbed;
    var s := w.subs[k];
    CancelIff(w, now, k, k.subscriber, k.subscriber, s.merchantAta, ata, s.state.GracePeriod?, s.state.Paused?, active);
  }

  lemma CancelCleanup(w: World, now: I64, k: SubKey, ata: Key, active: int, j: SubKey)
    requires KeyOk(w, k) && Timely(w, k, now, active) && now >= 0 && Supply(w.bank) <= U64_MAX
    requires Cancellable(w, k)
    requires ata in w.bank.accounts && w.bank.accounts[ata].owner == k.subscriber
    ensures Step(w, now, CancelOf(w, k, ata)).Ok?
    ensures var w1 := Step(w, now, CancelOf(w, k, ata)).value;
      && Step(w1, now, Cleanup(k.subscriber, k)).Ok?
      && var w2 := Step(w1, now, Cleanup(k.subscriber, k)).value;
        && k !in w2.subs && k !in w2.bank.vaults && k !in w2.graced && k !in w2.paused
        && (j != k ==> SameAt(w.subs, w2.subs, j) && SameAt(w.bank.vaults, w2.bank.vaults, j))
        && w2.plans == w.plans && w2.sessions == w.sessions
        && ata in w2.bank.accounts && w2.bank.accounts[ata].owner == k.subscriber
        && w2.bank.accounts[ata].amount >= w.bank.accounts[ata].amount + RefundAt(w, k, now)
  {
    hide BookOf, Supply, Accrued, WithdrawAny, CancelGuards;
    var s := w.subs[k];
    CancelDecides(w, now, k, k.subscriber, k.subscriber, s.merchantAta, ata, s.state.GracePeriod?, s.state.Paused?, active);
    CancelContained(w, now, k.subscriber, k, k.subscriber, s.merchantAta, ata, s.state.GracePeriod?, s.state.Paused?, j);
    CancelSpares(w, now, k.subscriber, k, k.subscriber, s.merchantAta, ata, s.state.GracePeriod?, s.state.Paused?);
  }

  lemma CancelSpares(w: World, now: I64, signer: Key, k: SubKey, rentTo: Key, mAta: Key, sAta: Key, g: bool, p: bool)
    requires CancelStep(w, now, signer, k, rentTo, mAta, sAta, g, p).Ok?
    ensures var w' := CancelStep(w, now, signer, k, rentTo, mAta, sAta, g, p).value;
      w'.plans == w.plans && w'.sessions == w.sessions
  {
    hide WithdrawAny, CancelGuards;
  }

  lemma MigrationRuns(w: World, now: I64, k: SubKey, k': SubKey, ata: Key, periods: U8, active: int)
    requires KeyOk(w, k) && KeyOk(w, k') && Timely(w, k, now, active) && now >= 0 && Supply(w.bank) <= U64_MAX
    requires Cancellable(w, k)
    requires k'.subscriber == k.subscriber && (k' == k || k' !in w.subs)
    requires SubscribeGuardsHold(w, now, k'.plan, periods)
    requires CanPay(w.bank, ata, k.subscriber, w.plans[k'.plan].price * periods - RefundAt(w, k, now))
    ensures var tail := [CancelOf(w, k, ata), Cleanup(k.subscriber, k), Subscribe(k.subscriber, k'.plan, ata, periods)];
      && Transact(w, now, tail).Ok?
      && Migrated(w, Transact(w, now, tail).value, k, k', now, w.plans[k'.plan].price * periods)
  {
    hide BookOf, Step, Timely, Supply, RefundAt;
    CancelCleanup(w, now, k, ata, active, k');
    var w1 := Step(w, now, CancelOf(w, k, ata)).value;
    var w2 := Step(w1, now, Cleanup(k.subscriber, k)).value;
    SubscribeSucceeds(w2, now, k', ata, periods);
    var cancel, cleanup := [CancelOf(w, k, ata)], [Cleanup(k.subscriber, k)];
    var subscribe := [Subscribe(k.subscriber, k'.plan, ata, periods)];
    assert cancel + (cleanup + subscribe)
        == [CancelOf(w, k, ata), Cleanup(k.subscriber, k), Subscribe(k.subscriber, k'.plan, ata, periods)];
    TransactAppend(w, now, cancel, cleanup + subscribe);
    TransactAppend(w1, now, cleanup, subscribe);
    TransactOne(w, now, cancel[0]);
    TransactOne(w1, now, cleanup[0]);
    TransactOne(w2, now, subscribe[0]);
  }

  // ----- change rate -----

  /** What `build_change_rate_tx` reads from the cluster. */
  function Fetched(w: World, returned: seq<Listed>, opts: ChangeRateOptions): Built {
    var k := SubKey(opts.subscriber, opts.oldPlan);
    ChangeRateList(Fetch(w.plans, opts.oldPlan), Fetch(w.plans, opts.newPlan),
                   if k in w.subs then Some(View(w.subs[k])) else None, returned, opts)
  }

  /** The sessions a change of rate closes. */
  function Closed(returned: seq<Listed>, opts: ChangeRateOptions): set<SessionKey> {
    if opts.closeAlivePaySessions then set i | 0 <= i < |returned| :: returned[i].address else {}
  }

  /** What the caller must have: the new plan's guards, a free or identical target address, and the money. */
  predicate CanMigrate(w: World, now: int, opts: ChangeRateOptions) {
    var k, k' := SubKey(opts.subscriber, opts.oldPlan), SubKey(opts.subscriber, opts.newPlan);
    && k in w.subs && (k' == k || k' !in w.subs)
    && SubscribeGuardsHold(w, now, opts.newPlan, opts.newDepositPeriods)
    && CanPay(w.bank, opts.subscriberAta, opts.subscriber,
             w.plans[opts.newPlan].price * opts.newDepositPeriods - RefundAt(w, k, now))
  }

  lemma SessionsOk(w: World)
    requires Inv(w)
    ensures forall sk :: sk in w.sessions ==> SessionOk(w, sk, w.sessions[sk])
  {
    hide KeyOk, Supply, SessionOk;
  }

  /** The builder's own checks pass on a record of the program. */
  lemma Migratable(w: World, k: SubKey, newPlan: PlanKey)
    requires Inv(w) && KeyOk(w, k) && k in w.subs && newPlan in w.plans
    ensures k.plan in w.plans && w.plans[k.plan].tokenMint == w.plans[newPlan].tokenMint
    ensures w.subs[k].subscriber == k.subscriber && !w.subs[k].state.Exhausted?
  {
    hide BookOf, Supply;
    assert PlanOk(newPlan, w.plans[newPlan]) && PlanOk(k.plan, w.plans[k.plan]);
  }

  /** The list built from a record that exists: the closes, then cancel, cleanup and subscribe. */
  lemma ListShape(w: World, returned: seq<Listed>, opts: ChangeRateOptions)
    requires Inv(w) && KeyOk(w, SubKey(opts.subscriber, opts.oldPlan)) && SubKey(opts.subscriber, opts.oldPlan) in w.subs
    requires opts.newPlan in w.plans
    requires opts.closeAlivePaySessions ==>
      Lists(returned, w, SubKey(opts.subscriber, opts.oldPlan)) && |returned| <= MAX_INLINE_CLOSES
    ensures var k := SubKey(opts.subscriber, opts.oldPlan);
      var alive := if opts.closeAlivePaySessions then returned else [];
      Fetched(w, returned, opts) == Ready(Closes(alive, k, opts.subscriber)
        + [CancelOf(w, k, opts.subscriberAta), Cleanup(opts.subscriber, k),
           Subscribe(opts.subscriber, opts.newPlan, opts.subscriberAta, opts.newDepositPeriods)])
  {
    hide Inv, KeyOk, SessionOk, Alive, Closes;
    var k := SubKey(opts.subscriber, opts.oldPlan);
    Migratable(w, k, opts.newPlan);
    if opts.closeAlivePaySessions {
      SessionsOk(w);
      AllAlive(returned, w, k);
    }
    var alive := if opts.closeAlivePaySessions then returned else [];
    var c := Closes(alive, k, opts.subscriber);
    var d := Subscribe(opts.subscriber, opts.newPlan, opts.subscriberAta, opts.newDepositPeriods);
    assert c + [CancelOf(w, k, opts.subscriberAta), Cleanup(opts.subscriber, k)] + [d]
        == c + [CancelOf(w, k, opts.subscriberAta), Cleanup(opts.subscriber, k), d];
  }

  lemma ClosePhase(w: World, now: I64, returned: seq<Listed>, opts: ChangeRateOptions)
    requires Inv(w) && KeyOk(w, SubKey(opts.subscriber, opts.oldPlan)) && SubKey(opts.subscriber, opts.oldPlan) in w.subs
    requires opts.closeAlivePaySessions ==> Lists(returned, w, SubKey(opts.subscriber, opts.oldPlan))
    ensures var k := SubKey(opts.subscriber, opts.oldPlan);
      var alive := if opts.closeAlivePaySessions then returned else [];
      Transact(w, now, Closes(alive, k, opts.subscriber)) == Ok(Removed(w, Closed(returned, opts)))
  {
    hide BookOf, Supply;
    var alive := if opts.closeAlivePaySessions then returned else [];
    ClosesRun(w, now, alive, SubKey(opts.subscriber, opts.oldPlan));
    assert w.sessions - {} == w.sessions;
  }

  /** Where the cancellation cannot run, nothing after it does. */
  lemma NothingAfterCancel(w: World, now: I64, k: SubKey, ata: Key, rest: seq<Instruction>)
    requires k in w.subs && Step(w, now, CancelOf(w, k, ata)).Err?
    ensures Transact(w, now, [CancelOf(w, k, ata)] + rest).Err?
  {
    hide Step;
    TransactAppend(w, now, [CancelOf(w, k, ata)], rest);
    TransactOne(w, now, CancelOf(w, k, ata));
  }

  /** Removing sessions touches nothing a migration looks at. */
  lemma RemovedAlike(w: World, gone: set<SessionKey>, k: SubKey, now: I64, active: int)
    requires KeyOk(w, k) && Timely(w, k, now, active)
    ensures KeyOk(Removed(w, gone), k) && Timely(Removed(w, gone), k, now, active)
  {
    hide BookOf, Accrued;
  }

  lemma ChangeRateRuns(w: World, now: I64, returned: seq<Listed>, opts: ChangeRateOptions, active: int)
    requires var k := SubKey(opts.subscriber, opts.oldPlan);
      Inv(w) && KeyOk(w, k) && Timely(w, k, now, active) && now >= 0
    requires CanMigrate(w, now, opts)
    requires opts.closeAlivePaySessions ==>
      Lists(returned, w, SubKey(opts.subscriber, opts.oldPlan)) && |returned| <= MAX_INLINE_CLOSES
    ensures var k, k' := SubKey(opts.subscriber, opts.oldPlan), SubKey(opts.subscriber, opts.newPlan);
      var built := Fetched(w, returned, opts);
      && built.Ready?
      && (Transact(w, now, built.ixs).Ok? <==> Cancellable(w, k))
      && (Cancellable(w, k) ==>
            Migrated(Removed(w, Closed(returned, opts)), Transact(w, now, built.ixs).value, k, k', now,
                     w.plans[opts.newPlan].price * opts.newDepositPeriods))
  {
    hide BookOf, Supply, Timely, Step, KeyOk, Lists, Fetched, Migrated, RefundAt, Closed, Closes;
    var k, k' := SubKey(opts.subscriber, opts.oldPlan), SubKey(opts.subscriber, opts.newPlan);
    ListShape(w, returned, opts);
    ClosePhase(w, now, returned, opts);
    var alive := if opts.closeAlivePaySessions then returned else [];
    var w1 := Removed(w, Closed(returned, opts));
    var tail := [CancelOf(w, k, opts.subscriberAta), Cleanup(opts.subscriber, k),
                 Subscribe(opts.subscriber, opts.newPlan, opts.subscriberAta, opts.newDepositPeriods)];
    TransactAppend(w, now, Closes(alive, k, opts.subscriber), tail);
    RemovedAlike(w, Closed(returned, opts), k, now, active);
    CancelRuns(w1, now, k, opts.subscriberAta, active);
    if Cancellable(w, k) {
      TargetFree(w, Closed(returned, opts), k', k);
      SameRefund(w, Closed(returned, opts), k, now);
      MigrationRuns(w1, now, k, k', opts.subscriberAta, opts.newDepositPeriods, active);
    } else {
      assert tail == [CancelOf(w1, k, opts.subscriberAta)] + tail[1..];
      NothingAfterCancel(w1, now, k, opts.subscriberAta, tail[1..]);
    }
  }

  lemma TargetFree(w: World, gone: set<SessionKey>, k': SubKey, k: SubKey)
    requires Inv(w) && KeyOk(w, k)
    ensures KeyOk(Removed(w, gone), k')
  {
    hide BookOf, Supply;
    assert KeyOk(w, k');
  }

  lemma SameRefund(w: World, gone: set<SessionKey>, k: SubKey, now: I64)
    requires k in w.subs
    ensures RefundAt(Removed(w, gone), k, now) == RefundAt(w, k, now)
  {
    hide Accrued;
  }

  /**
   * Builder soundness: for a reachable subscription, the list of `build_change_rate_tx` commits if and only
   * if the subscription is still live, its merchant's account exists and its vault holds nothing of outsiders,
   * given the new plan's guards and funds. It then ends with the old record, vault, satellites and listed sessions
   * gone and the new subscription Active. Elsewhere, on a tombstone in particular, the list aborts, so the
   * transaction leaves every account as it was.
   */
  lemma {:induction false} ChangeRateSound(r: Run, now: I64, returned: seq<Listed>, opts: ChangeRateOptions)
    requires Funded(r) && Forward(r) && Clock(r) <= now && CanMigrate(After(r), now, opts)
    requires opts.closeAlivePaySessions ==>
      Lists(returned, After(r), SubKey(opts.subscriber, opts.oldPlan)) && |returned| <= MAX_INLINE_CLOSES
    ensures var w, k, k' := After(r), SubKey(opts.subscriber, opts.oldPlan), SubKey(opts.subscriber, opts.newPlan);
      var built := Fetched(w, returned, opts);
      && built.Ready?
      && (Transact(w, now, built.ixs).Ok? <==> Cancellable(w, k))
      && (Cancellable(w, k) ==>
            Migrated(Removed(w, Closed(returned, opts)), Transact(w, now, built.ixs).value, k, k', now,
                     w.plans[opts.newPlan].price * opts.newDepositPeriods))
    ensures opts.closeAlivePaySessions ==>
      forall sk :: sk in Removed(After(r), Closed(returned, opts)).sessions ==> sk.sub != SubKey(opts.subscriber, opts.oldPlan)
  {
    hide Inv, Timely, KeyOk, Step, BookOf, Fetched, Migrated, Transact, CanMigrate;
    var k := SubKey(opts.subscriber, opts.oldPlan);
    Reached(r, k, now);
    ChangeRateRuns(After(r), now, returned, opts, ActiveBy(r, k, now));
  }

  /** With no old record the list is a plain subscribe, and it runs. */
  lemma {:induction false} FreshMigrationRuns(r: Run, now: I64, returned: seq<Listed>, opts: ChangeRateOptions)
    requires Funded(r) && SubKey(opts.subscriber, opts.oldPlan) !in After(r).subs
    requires SubKey(opts.subscriber, opts.newPlan) !in After(r).subs
    requires opts.oldPlan in After(r).plans && SubscribeGuardsHold(After(r), now, opts.newPlan, opts.newDepositPeriods)
    requires CanPay(After(r).bank, opts.subscriberAta, opts.subscriber,
                   After(r).plans[opts.newPlan].price * opts.newDepositPeriods)
    ensures var w, k' := After(r), SubKey(opts.subscriber, opts.newPlan);
      && Fetched(w, returned, opts).Ready? && Transact(w, now, Fetched(w, returned, opts).ixs).Ok?
      && var w' := Transact(w, now, Fetched(w, returned, opts).ixs).value;
         k' in w'.subs && w'.subs[k'].state.Active? && w'.subs[k'].streamStart == now
  {
    hide Step, BookOf, Supply, KeyOk;
    var w, k' := After(r), SubKey(opts.subscriber, opts.newPlan);
    RunInvariant(r);
    assert PlanOk(opts.newPlan, w.plans[opts.newPlan]) && PlanOk(opts.oldPlan, w.plans[opts.oldPlan]);
    NoVault(w, k');
    SubscribeSucceeds(w, now, k', opts.subscriberAta, opts.newDepositPeriods);
    TransactOne(w, now, Subscribe(opts.subscriber, opts.newPlan, opts.subscriberAta, opts.newDepositPeriods));
  }

  lemma NoVault(w: World, k: SubKey)
    requires Inv(w) && k !in w.subs
    ensures k !in w.bank.vaults
  {
    hide BookOf, Supply;
    assert KeyOk(w, k);
  }

  // ----- re-subscribe -----

  function Ids(returned: seq<Listed>): seq<U64> {
    seq(|returned|, i requires 0 <= i < |returned| => returned[i].session.sessionId)
  }

  lemma {:induction false} SameCloses(returned: seq<Listed>, w: World, k: SubKey)
    requires forall i :: 0 <= i < |returned| ==> ListedIn(returned[i], w, k)
    requires forall sk :: sk in w.sessions ==> SessionOk(w, sk, w.sessions[sk])
    ensures CloseAll(Ids(returned), k) == Closes(returned, k, k.subscriber)
  {
    if returned != [] {
      var front, last := returned[..|returned| - 1], returned[|returned| - 1];
      SameCloses(front, w, k);
      assert ListedIn(last, w, k) && SessionOk(w, last.address, w.sessions[last.address]);
      assert Ids(returned)[..|returned| - 1] == Ids(front);
    }
  }

  /** What `build_resubscribe_ixs` emits for the state an RPC read of `k` returns. */
  function Resubscription(w: World, returned: seq<Listed>, k: SubKey, ata: Key, periods: U8, close: bool): Built {
    ResubscribeList(k, ata, periods, if k in w.subs then Some(Byte(w.subs[k].state)) else None, Ids(returned), close)
  }

  /**
   * `build_resubscribe_ixs` is sound: it builds a list exactly for an absent record, or past a tombstone when the
   * sessions it is asked to close fit. The list commits, frees the address and starts a new stream; past a tombstone
   * it removes exactly the parent's sessions when asked to, and otherwise leaves every session in place.
   */
  lemma {:induction false} ResubscribeSound(r: Run, now: I64, returned: seq<Listed>, k: SubKey, ata: Key, periods: U8,
                                            close: bool)
    requires Funded(r) && (close && k in After(r).subs ==> Lists(returned, After(r), k))
    requires SubscribeGuardsHold(After(r), now, k.plan, periods)
    requires CanPay(After(r).bank, ata, k.subscriber, After(r).plans[k.plan].price * periods)
    ensures var w, built := After(r), Resubscription(After(r), returned, k, ata, periods, close);
      && (built.Ready? <==>
            k in w.subs ==> w.subs[k].state.Cancelled? && (close ==> |returned| <= MAX_INLINE_CLOSES))
      && (built.Ready? ==>
            && Transact(w, now, built.ixs).Ok?
            && var w' := Transact(w, now, built.ixs).value;
               && k in w'.subs && w'.subs[k].state.Active? && w'.subs[k].streamStart == now && w'.subs[k].withdrawn == 0
               && (forall sk :: sk in w'.sessions <==> sk in w.sessions && (close && k in w.subs ==> sk.sub != k)))
  {
    hide Step, BookOf, Inv, Transact, KeyOk, CloseAll;
    RunInvariant(r);
    if k !in After(r).subs {
      FirstSubscribe(After(r), now, k, ata, periods);
    } else if After(r).subs[k].state.Cancelled? {
      if close {
        ResubscribeRuns(After(r), now, returned, k, ata, periods);
      } else {
        var tail := [Cleanup(k.subscriber, k), Subscribe(k.subscriber, k.plan, ata, periods)];
        assert [] + tail == tail;
        TombstoneKey(After(r), k);
        CleanupSubscribe(After(r), now, k, ata, periods);
      }
    }
  }

  lemma FirstSubscribe(w: World, now: I64, k: SubKey, ata: Key, periods: U8)
    requires Inv(w) && k !in w.subs && SubscribeGuardsHold(w, now, k.plan, periods)
    requires CanPay(w.bank, ata, k.subscriber, w.plans[k.plan].price * periods)
    ensures var outcome := Transact(w, now, [Subscribe(k.subscriber, k.plan, ata, periods)]);
      && outcome.Ok? && outcome.value.sessions == w.sessions && k in outcome.value.subs
      && var s := outcome.value.subs[k]; s.state.Active? && s.streamStart == now && s.withdrawn == 0
  {
    hide Step, Inv, Transact;
    NoVault(w, k);
    SubscribeSucceeds(w, now, k, ata, periods);
    TransactOne(w, now, Subscribe(k.subscriber, k.plan, ata, periods));
  }

  lemma TombstoneKey(w: World, k: SubKey)
    requires Inv(w) && k in w.subs && w.subs[k].state.Cancelled?
    ensures w.subs[k].subscriber == k.subscriber && k !in w.bank.vaults
  {
    hide BookOf, Supply;
    assert KeyOk(w, k);
  }

  lemma ResubscribeRuns(w: World, now: I64, returned: seq<Listed>, k: SubKey, ata: Key, periods: U8)
    requires Inv(w) && k in w.subs && w.subs[k].state.Cancelled? && Lists(returned, w, k)
    requires SubscribeGuardsHold(w, now, k.plan, periods)
    requires CanPay(w.bank, ata, k.subscriber, w.plans[k.plan].price * periods)
    ensures var ixs := CloseAll(Ids(returned), k) + [Cleanup(k.subscriber, k), Subscribe(k.subscriber, k.plan, ata, periods)];
      && Transact(w, now, ixs).Ok?
      && var w' := Transact(w, now, ixs).value;
         && k in w'.subs && w'.subs[k].state.Active? && w'.subs[k].streamStart == now && w'.subs[k].withdrawn == 0
         && (forall sk :: sk in w'.sessions <==> sk in w.sessions && sk.sub != k)
  {
    hide BookOf, Supply, Transact, Closes;
    assert KeyOk(w, k);
    SameCloses(returned, w, k);
    ClosesRun(w, now, returned, k);
    var w1 := Removed(w, set i | 0 <= i < |returned| :: returned[i].address);
    CleanupSubscribe(w1, now, k, ata, periods);
    TransactAppend(w, now, CloseAll(Ids(returned), k), [Cleanup(k.subscriber, k), Subscribe(k.subscriber, k.plan, ata, periods)]);
    hide Step;
    AllGone(returned, w, k);
  }

  lemma AllGone(returned: seq<Listed>, w: World, k: SubKey)
    requires Lists(returned, w, k)
    ensures forall sk ::
      sk in Removed(w, set i | 0 <= i < |returned| :: returned[i].address).sessions <==> sk in w.sessions && sk.sub != k
  {
    forall sk | sk in w.sessions
      ensures sk in (set i | 0 <= i < |returned| :: returned[i].address) <==> sk.sub == k
    {
      if sk in (set i | 0 <= i < |returned| :: returned[i].address) {
        var i :| 0 <= i < |returned| && returned[i].address == sk;
        assert ListedIn(returned[i], w, k);
      }
    }
  }

  lemma CleanupSubscribe(w: World, now: I64, k: SubKey, ata: Key, periods: U8)
    requires k in w.subs && w.subs[k].state.Cancelled? && w.subs[k].subscriber == k.subscriber && k !in w.bank.vaults
    requires SubscribeGuardsHold(w, now, k.plan, periods)
    requires CanPay(w.bank, ata, k.subscriber, w.plans[k.plan].price * periods)
    ensures var ixs := [Cleanup(k.subscriber, k), Subscribe(k.subscriber, k.plan, ata, periods)];
      && Transact(w, now, ixs).Ok?
      && var w' := Transact(w, now, ixs).value;
         && k in w'.subs && w'.subs[k].state.Active? && w'.subs[k].streamStart == now && w'.subs[k].withdrawn == 0
         && w'.sessions == w.sessions
  {
    var a, b := [Cleanup(k.subscriber, k)], [Subscribe(k.subscriber, k.plan, ata, periods)];
    assert a + b == [Cleanup(k.subscriber, k), Subscribe(k.subscriber, k.plan, ata, periods)];
    TransactAppend(w, now, a, b);
    TransactOne(w, now, a[0]);
    var w1 := w.(subs := w.subs - {k});
    assert Step(w, now, a[0]) == Ok(w1);
    hide Step;
    SubscribeSucceeds(w1, now, k, ata, periods);
    TransactOne(w1, now, b[0]);
  }
}
