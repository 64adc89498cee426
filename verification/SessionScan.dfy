/**
 * The scans run against the program: from the stored accounts of a reachable world to the list a re-subscription
 * closes.
 */
module SessionScan {
  import opened Integers
  import opened State
  import opened Runs
  import opened Builders
  import opened BuilderSoundness
  import opened Wire
  import opened Layout
  import opened Sessions

  /** The addresses keys stand for. */
  datatype Addresses = Addresses(key: Key -> Bytes32, sub: SubKey -> Bytes32, tag: Discriminator)

  function StateByte(state: PaySessionState): U8 {
    match state
    case Open => 0
    case Settling => 1
    case Closed => 2
  }

  /** A session as the program stores it. */
  function Stored(p: PaySession, at: Addresses, bump: U8, reserved: Bytes32): SessionRecord {
    SessionRecord(at.sub(p.subscription), at.key(p.merchant), at.key(p.merchantAta), at.key(p.facilitator),
                  p.sessionId, p.openedAt, p.lastSettleAt, p.usage, p.reservationCap, StateByte(p.state), bump, reserved)
  }

  ghost predicate StoredAs(l: Listed, data: Bytes, at: Addresses) {
    exists bump: U8, reserved: Bytes32 :: data == at.tag + Encode(Stored(l.session, at, bump, reserved))
  }

  lemma StoredScans(l: Listed, data: Bytes, at: Addresses, k: SubKey)
    requires StoredAs(l, data, at) && l.session.subscription == k && l.session.state.Open?
    ensures PassesFilters(data, at.tag, at.sub(k)) && LooksOpen(data) && SessionIdIn(data) == l.session.sessionId
    ensures |data| == DISCRIMINATOR_LEN + PAY_SESSION_SPACE
  {
    hide Encode, U64Of;
    var bump: U8, reserved: Bytes32 :| data == at.tag + Encode(Stored(l.session, at, bump, reserved));
    Offsets(at.tag, Stored(l.session, at, bump, reserved));
  }

  lemma {:induction false} AllIdsFound(returned: seq<Listed>, accounts: seq<Bytes>, at: Addresses, k: SubKey)
    requires |accounts| == |returned|
    requires forall i :: 0 <= i < |returned| ==> StoredAs(returned[i], accounts[i], at)
    requires forall i :: 0 <= i < |returned| ==> returned[i].session.subscription == k && returned[i].session.state.Open?
    ensures OpenIds(accounts) == Ids(returned)
  {
    hide StoredAs, SessionIdIn, LooksOpen;
    if returned != [] {
      var n := |returned| - 1;
      AllIdsFound(returned[..n], accounts[..n], at, k);
      StoredScans(returned[n], accounts[n], at, k);
      assert Ids(returned) == Ids(returned[..n]) + [returned[n].session.sessionId];
    }
  }

  /**
   * End to end: in every reachable world, both scans over the stored accounts of a subscription's sessions, in
   * whatever order the node returns them, find the id of every one of them, each exactly once.
   */
  lemma {:induction false} ScansFindEverySession(r: Run, k: SubKey, returned: seq<Listed>, accounts: seq<Bytes>,
                                                 at: Addresses)
    requires Funded(r) && Lists(returned, After(r), k) && |accounts| == |returned|
    requires forall i :: 0 <= i < |returned| ==> StoredAs(returned[i], accounts[i], at)
    ensures OpenRecords(accounts, at.sub(k)).Decoded?
    ensures IdsOf(OpenRecords(accounts, at.sub(k)).value) == Ids(returned)
    ensures multiset(Sorted(OpenIds(accounts))) == multiset(Ids(returned))
    ensures forall sk: SessionKey :: sk.sub == k ==> (sk in After(r).sessions <==> sk.sessionId in Ids(returned))
    ensures forall i, j :: 0 <= i < j < |returned| ==> Ids(returned)[i] != Ids(returned)[j]
  {
    hide StoredAs, Encode, LooksOpen, SessionIdIn, After;
    forall i | 0 <= i < |returned|
      ensures returned[i].session.subscription == k && returned[i].session.state.Open?
      ensures returned[i].address == SessionKey(k, returned[i].session.sessionId)
      ensures PassesFilters(accounts[i], at.tag, at.sub(k)) && |accounts[i]| == DISCRIMINATOR_LEN + PAY_SESSION_SPACE
    {
      assert ListedIn(returned[i], After(r), k);
      SessionAt(r, returned[i].address);
      StoredScans(returned[i], accounts[i], at, k);
    }
    AllIdsFound(returned, accounts, at, k);
    SameIds(accounts, at.tag, at.sub(k));
    forall sk: SessionKey | sk.sub == k
      ensures sk in After(r).sessions <==> sk.sessionId in Ids(returned)
    {
      if sk in After(r).sessions {
        var i :| 0 <= i < |returned| && returned[i].address == sk;
        assert Ids(returned)[i] == sk.sessionId;
      }
      if sk.sessionId in Ids(returned) {
        var i :| 0 <= i < |returned| && Ids(returned)[i] == sk.sessionId;
        assert ListedIn(returned[i], After(r), k);
      }
    }
  }
}
