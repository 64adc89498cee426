/** The composite-transaction builders: which instruction list each emits for an observed state, or which refusal. */
module Builders {
  import opened Integers
  import opened State
  import opened Views

  /** More sessions than this do not fit one transaction. */
  const MAX_INLINE_CLOSES := 4

  datatype ChangeRateOptions = ChangeRateOptions(
    subscriber: Key,
    subscriberAta: Key,
    oldPlan: PlanKey,
    newPlan: PlanKey,
    newDepositPeriods: U8,
    closeAlivePaySessions: bool)

  datatype BuildError =
    | AccountMissing
    | CrossMintMigrationUnsupported
    | SubscriberMismatch
    | TooManySessions(count: nat)
    | UnknownSubscriptionState(byte: U8)
    | SubscriptionAlive(state: U8)
    | BadPeriods

  datatype Built = Ready(ixs: seq<Instruction>) | Refused(error: BuildError)

  /** A program account as an RPC node returns it: its address and its contents. */
  datatype Listed = Listed(address: SessionKey, session: PaySession)

  // ----- listing the sessions to close -----

  function Alive(returned: seq<Listed>, k: SubKey): seq<Listed> {
    if returned == [] then []
    else
      var rest := Alive(returned[..|returned| - 1], k);
      var last := returned[|returned| - 1];
      if last.session.subscription == k && last.session.state.Open? then rest + [last] else rest
  }

  /** The filter keeps exactly the Open sessions of the parent, as often as they were returned. */
  lemma {:induction false} AliveExactly(returned: seq<Listed>, k: SubKey, l: Listed)
    ensures l in Alive(returned, k) <==> l in returned && l.session.subscription == k && l.session.state.Open?
    ensures multiset(Alive(returned, k))[l]
         == if l.session.subscription == k && l.session.state.Open? then multiset(returned)[l] else 0
  {
    if returned != [] {
      var front, last := returned[..|returned| - 1], returned[|returned| - 1];
      AliveExactly(front, k, l);
      assert returned == front + [last];
    }
  }

  method ListAlivePaySessions(returned: seq<Listed>, k: SubKey) returns (alive: seq<Listed>)
    ensures alive == Alive(returned, k)
  {
    alive := [];
    for i := 0 to |returned|
      invariant alive == Alive(returned[..i], k)
    {
      assert returned[..i + 1][..i] == returned[..i];
      if returned[i].session.subscription == k && returned[i].session.state.Open? {
        alive := alive + [returned[i]];
      }
    }
    assert returned[..|returned|] == returned;
  }

  /** One close per listed session whose address is the one its id derives. */
  function Closes(alive: seq<Listed>, k: SubKey, subscriber: Key): seq<Instruction> {
    if alive == [] then []
    else
      var rest := Closes(alive[..|alive| - 1], k, subscriber);
      var last := alive[|alive| - 1];
      if SessionKey(k, last.session.sessionId) == last.address
      then rest + [CloseSession(subscriber, k, last.session.sessionId)]
      else rest
  }

  // ----- change rate -----

  /** Which satellites a cancellation must carry, as (graced, paused). */
  function SelectCancelSatellites(state: StateByte): Option<(bool, bool)> {
    match state
    case Known(GracePeriod) => Some((true, false))
    case Known(Paused) => Some((false, true))
    case Known(_) => Some((false, false))
    case Unknown(_) => None
  }

  function ChangeRateList(oldPlan: Option<Plan>, newPlan: Option<Plan>, oldSub: Option<SubscriptionView>,
                          returned: seq<Listed>, opts: ChangeRateOptions): Built
  {
    var k := SubKey(opts.subscriber, opts.oldPlan);
    var subscribe := [Subscribe(opts.subscriber, opts.newPlan, opts.subscriberAta, opts.newDepositPeriods)];
    var alive := if opts.closeAlivePaySessions then Alive(returned, k) else [];
    if oldPlan.None? || newPlan.None? then Refused(AccountMissing)
    else if oldPlan.value.tokenMint != newPlan.value.tokenMint then Refused(CrossMintMigrationUnsupported)
    else if oldSub.None? then Ready(subscribe)
    else if opts.subscriber != oldSub.value.subscriber then Refused(SubscriberMismatch)
    else if |alive| > MAX_INLINE_CLOSES then Refused(TooManySessions(|alive|))
    else match SelectCancelSatellites(FromByte(oldSub.value.state))
      case None => Refused(UnknownSubscriptionState(oldSub.value.state))
      case Some((graced, paused)) =>
        Ready(Closes(alive, k, opts.subscriber)
              + [Cancel(opts.subscriber, k, opts.subscriber, oldSub.value.merchantAta, opts.subscriberAta, graced, paused),
                 Cleanup(opts.subscriber, k)]
              + subscribe)
  }

  method BuildChangeRate(oldPlan: Option<Plan>, newPlan: Option<Plan>, oldSub: Option<SubscriptionView>,
                         returned: seq<Listed>, opts: ChangeRateOptions)
    returns (built: Built)
    ensures built == ChangeRateList(oldPlan, newPlan, oldSub, returned, opts)
  {
    if oldPlan.None? { return Refused(AccountMissing); }
    if newPlan.None? { return Refused(AccountMissing); }
    if oldPlan.value.tokenMint != newPlan.value.tokenMint { return Refused(CrossMintMigrationUnsupported); }
    var k := SubKey(opts.subscriber, opts.oldPlan);
    var ixs: seq<Instruction> := [];
    if oldSub.Some? {
      var sub := oldSub.value;
      if opts.subscriber != sub.subscriber { return Refused(SubscriberMismatch); }
      var alive: seq<Listed> := [];
      if opts.closeAlivePaySessions {
        alive := ListAlivePaySessions(returned, k);
        if |alive| > MAX_INLINE_CLOSES { return Refused(TooManySessions(|alive|)); }
        for i := 0 to |alive|
          invariant ixs == Closes(alive[..i], k, opts.subscriber)
        {
          assert alive[..i + 1][..i] == alive[..i];
          if SessionKey(k, alive[i].session.sessionId) == alive[i].address {
            ixs := ixs + [CloseSession(opts.subscriber, k, alive[i].session.sessionId)];
          }
        }
        assert alive[..|alive|] == alive;
      }
      var satellites := SelectCancelSatellites(FromByte(sub.state));
      if satellites.None? { return Refused(UnknownSubscriptionState(sub.state)); }
      ixs := ixs + [Cancel(opts.subscriber, k, opts.subscriber, sub.merchantAta, opts.subscriberAta,
                           satellites.value.0, satellites.value.1)];
      ixs := ixs + [Cleanup(opts.subscriber, k)];
    }
    ixs := ixs + [Subscribe(opts.subscriber, opts.newPlan, opts.subscriberAta, opts.newDepositPeriods)];
    built := Ready(ixs);
  }

  /**
   * Every refusal of `build_change_rate_tx` and its exact reason, for anything the cluster may return; four sessions
   * are the most it closes.
   */
  lemma ChangeRateRefusals(oldPlan: Option<Plan>, newPlan: Option<Plan>, oldSub: Option<SubscriptionView>,
                           returned: seq<Listed>, opts: ChangeRateOptions)
    ensures var built := ChangeRateList(oldPlan, newPlan, oldSub, returned, opts);
      var n := |Alive(returned, SubKey(opts.subscriber, opts.oldPlan))|;
      var readable := oldPlan.Some? && newPlan.Some?;
      var sameMint := readable && oldPlan.value.tokenMint == newPlan.value.tokenMint;
      var own := sameMint && oldSub.Some? && oldSub.value.subscriber == opts.subscriber;
      var fits := own && (opts.closeAlivePaySessions ==> n <= 4);
      && (built == Refused(AccountMissing) <==> !readable)
      && (built == Refused(CrossMintMigrationUnsupported) <==> readable && !sameMint)
      && (built == Refused(SubscriberMismatch) <==> sameMint && oldSub.Some? && !own)
      && (built.Refused? && built.error.TooManySessions? <==> own && !fits)
      && (own && !fits ==> built == Refused(TooManySessions(n)))
      && (built.Refused? && built.error.UnknownSubscriptionState? <==> fits && oldSub.value.state > 4)
      && (fits && oldSub.value.state > 4 ==> built == Refused(UnknownSubscriptionState(oldSub.value.state)))
      && (built.Ready? <==> sameMint && (oldSub.Some? ==> fits && oldSub.value.state <= 4))
  {
  }

  // ----- re-subscribe -----

  function CloseAll(alive: seq<U64>, k: SubKey): seq<Instruction> {
    if alive == [] then []
    else CloseAll(alive[..|alive| - 1], k) + [CloseSession(k.subscriber, k, alive[|alive| - 1])]
  }

  function ResubscribeList(k: SubKey, ata: Key, periods: U8, state: Option<U8>, alive: seq<U64>, close: bool): Built {
    var subscribe := Subscribe(k.subscriber, k.plan, ata, periods);
    match state
    case None => Ready([subscribe])
    case Some(b) =>
      if b != 4 then Refused(SubscriptionAlive(b))
      else if close && |alive| > MAX_INLINE_CLOSES then Refused(TooManySessions(|alive|))
      else Ready((if close then CloseAll(alive, k) else []) + [Cleanup(k.subscriber, k), subscribe])
  }

  /** `build_resubscribe_ixs`: the session count is only looked at past a tombstone. */
  method BuildResubscribe(k: SubKey, ata: Key, periods: U8, state: Option<U8>, alive: seq<U64>, close: bool)
    returns (built: Built)
    ensures built == ResubscribeList(k, ata, periods, state, alive, close)
  {
    var sessions := if state == Some(4) then |alive| else 0;
    if close && sessions > MAX_INLINE_CLOSES { return Refused(TooManySessions(sessions)); }
    var subscribe := Subscribe(k.subscriber, k.plan, ata, periods);
    match state {
      case None => built := Ready([subscribe]);
      case Some(b) =>
        if b != 4 { return Refused(SubscriptionAlive(b)); }
        var ixs: seq<Instruction> := [];
        if close {
          for i := 0 to |alive|
            invariant ixs == CloseAll(alive[..i], k)
          {
            assert alive[..i + 1][..i] == alive[..i];
            ixs := ixs + [CloseSession(k.subscriber, k, alive[i])];
          }
          assert alive[..|alive|] == alive;
        }
        ixs := ixs + [Cleanup(k.subscriber, k)];
        ixs := ixs + [subscribe];
        built := Ready(ixs);
    }
  }

  /** The TypeScript builder: counts the sessions first whatever the state, and checks the period count itself. */
  method BuildResubscribeTs(k: SubKey, ata: Key, periods: int, state: Option<SubscriptionState>, alive: seq<U64>)
    returns (built: Built)
    ensures built == ResubscribeListTs(k, ata, periods, state, alive)
  {
    if |alive| > MAX_INLINE_CLOSES { return Refused(TooManySessions(|alive|)); }
    if state.Some? && !state.value.Cancelled? { return Refused(SubscriptionAlive(Byte(state.value))); }
    if periods < 1 || periods > U8_MAX { return Refused(BadPeriods); }
    var ixs: seq<Instruction> := [];
    if state.Some? {
      for i := 0 to |alive|
        invariant ixs == CloseAll(alive[..i], k)
      {
        assert alive[..i + 1][..i] == alive[..i];
        ixs := ixs + [CloseSession(k.subscriber, k, alive[i])];
      }
      assert alive[..|alive|] == alive;
      ixs := ixs + [Cleanup(k.subscriber, k)];
    }
    ixs := ixs + [Subscribe(k.subscriber, k.plan, ata, periods)];
    built := Ready(ixs);
  }

  function ResubscribeListTs(k: SubKey, ata: Key, periods: int, state: Option<SubscriptionState>, alive: seq<U64>)
    : Built
  {
    if |alive| > MAX_INLINE_CLOSES then Refused(TooManySessions(|alive|))
    else if state.Some? && !state.value.Cancelled? then Refused(SubscriptionAlive(Byte(state.value)))
    else if periods < 1 || periods > U8_MAX then Refused(BadPeriods)
    else Ready((if state.Some? then CloseAll(alive, k) + [Cleanup(k.subscriber, k)] else [])
               + [Subscribe(k.subscriber, k.plan, ata, periods)])
  }

  /**
   * Every refusal of `build_resubscribe_ixs` and its exact reason: any state byte but the tombstone's 4, and past a
   * tombstone more than four sessions to close.
   */
  lemma ResubscribeRefusals(k: SubKey, ata: Key, periods: U8, state: Option<U8>, alive: seq<U64>, close: bool)
    ensures var built := ResubscribeList(k, ata, periods, state, alive, close);
      && (state.None? ==> built == Ready([Subscribe(k.subscriber, k.plan, ata, periods)]))
      && (state.Some? && state.value != 4 ==> built == Refused(SubscriptionAlive(state.value)))
      && (state == Some(4) && close && |alive| > 4 ==> built == Refused(TooManySessions(|alive|)))
      && (state == Some(4) && !(close && |alive| > 4) ==> built.Ready?)
  {
  }

  /**
   * Both builders, asked to close the sessions, emit the same list or neither emits one, unless the period count
   * is out of range or a fresh subscribe is handed too many sessions.
   */
  lemma ResubscribeBuildersAgree(k: SubKey, ata: Key, periods: int, state: Option<SubscriptionState>, alive: seq<U64>)
    ensures var byte := if state.Some? then Some(Byte(state.value)) else None;
      var ts := ResubscribeListTs(k, ata, periods, state, alive);
      && (ts.Ready? <==>
            && 1 <= periods <= U8_MAX && (state.None? ==> |alive| <= MAX_INLINE_CLOSES)
            && ResubscribeList(k, ata, periods, byte, alive, true).Ready?)
      && (ts.Ready? ==> ts == ResubscribeList(k, ata, periods, byte, alive, true))
  {
    if state.Some? && state.value.Cancelled? && 1 <= periods <= U8_MAX {
      var s := Subscribe(k.subscriber, k.plan, ata, periods);
      assert CloseAll(alive, k) + [Cleanup(k.subscriber, k)] + [s] == CloseAll(alive, k) + [Cleanup(k.subscriber, k), s];
    }
  }
}
