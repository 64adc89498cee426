/**
 * The stored form of a pay session, and the two clients' ways of finding the open ones: the Rust client decodes
 * whole records, the TypeScript client looks at two fixed byte offsets.
 */
module Layout {
  import opened Integers
  import opened Wire

  const DISCRIMINATOR_LEN := 8
  const SUBSCRIPTION_OFFSET := DISCRIMINATOR_LEN + 0
  const SESSION_ID_OFFSET := DISCRIMINATOR_LEN + 128
  const STATE_OFFSET := DISCRIMINATOR_LEN + 168
  const STATE_OPEN := 0
  const PAY_SESSION_SPACE := 202

  type Discriminator = b: Bytes | |b| == 8 witness [0, 0, 0, 0, 0, 0, 0, 0]

  datatype SessionRecord = SessionRecord(
    subscription: Bytes32,
    merchant: Bytes32,
    merchantAta: Bytes32,
    facilitator: Bytes32,
    sessionId: U64,
    openedAt: I64,
    lastSettleAt: I64,
    usage: U64,
    reservationCap: U64,
    state: U8,
    bump: U8,
    reserved: Bytes32)

  /** An account as RPC returns it. */
  datatype Account = Account(owner: Bytes32, data: Bytes)

  // ----- Borsh -----

  /** The fields in declaration order, each behind the next. */
  function EncodeTail(p: SessionRecord): Bytes {
    U64Bytes(p.sessionId) + (I64Bytes(p.openedAt) + (I64Bytes(p.lastSettleAt) + (U64Bytes(p.usage)
      + (U64Bytes(p.reservationCap) + ([p.state] + ([p.bump] + (p.reserved + [])))))))
  }

  function Encode(p: SessionRecord): Bytes {
    p.subscription + (p.merchant + (p.merchantAta + (p.facilitator + EncodeTail(p))))
  }

  /** `try_from_slice`: field after field, and nothing may be left over. */
  function Decode(b: Bytes): Decoded<SessionRecord> {
    var subscription :- ReadBytes32(b);
    var merchant :- ReadBytes32(subscription.rest);
    var merchantAta :- ReadBytes32(merchant.rest);
    var facilitator :- ReadBytes32(merchantAta.rest);
    DecodeTail(subscription.value, merchant.value, merchantAta.value, facilitator.value, facilitator.rest)
  }

  function DecodeTail(subscription: Bytes32, merchant: Bytes32, merchantAta: Bytes32, facilitator: Bytes32, b: Bytes)
    : Decoded<SessionRecord>
  {
    var sessionId :- ReadU64(b);
    var openedAt :- ReadI64(sessionId.rest);
    var lastSettleAt :- ReadI64(openedAt.rest);
    var usage :- ReadU64(lastSettleAt.rest);
    var reservationCap :- ReadU64(usage.rest);
    var state :- ReadU8(reservationCap.rest);
    var bump :- ReadU8(state.rest);
    var reserved :- ReadBytes32(bump.rest);
    if reserved.rest != [] then Malformed(BadBody)
    else Decoded(SessionRecord(subscription, merchant, merchantAta, facilitator, sessionId.value, openedAt.value,
                               lastSettleAt.value, usage.value, reservationCap.value, state.value, bump.value, reserved.value))
  }

  /** Decoding undoes encoding, for every record; the encoding takes the 202 bytes the program asserts. */
  lemma RoundTrip(p: SessionRecord)
    ensures |Encode(p)| == PAY_SESSION_SPACE
    ensures Decode(Encode(p)) == Decoded(p)
  {
    hide U64Bytes, I64Bytes, ReadBytes32, ReadU64, ReadI64, ReadU8;
    TailRoundTrip(p);
    hide EncodeTail, DecodeTail;
    var r3 := p.facilitator + EncodeTail(p);
    var r2 := p.merchantAta + r3;
    var r1 := p.merchant + r2;
    ReadBack(p.subscription, 0, 0, 0, r1);
    ReadBack(p.merchant, 0, 0, 0, r2);
    ReadBack(p.merchantAta, 0, 0, 0, r3);
    ReadBack(p.facilitator, 0, 0, 0, EncodeTail(p));
  }

  lemma TailRoundTrip(p: SessionRecord)
    ensures |EncodeTail(p)| == 74
    ensures DecodeTail(p.subscription, p.merchant, p.merchantAta, p.facilitator, EncodeTail(p)) == Decoded(p)
  {
    hide U64Bytes, I64Bytes, ReadBytes32, ReadU64, ReadI64, ReadU8;
    var r7 := p.reserved + [];
    var r6 := [p.bump] + r7;
    var r5 := [p.state] + r6;
    var r4 := U64Bytes(p.reservationCap) + r5;
    var r3 := U64Bytes(p.usage) + r4;
    var r2 := I64Bytes(p.lastSettleAt) + r3;
    var r1 := I64Bytes(p.openedAt) + r2;
    ReadBack(p.reserved, p.sessionId, 0, 0, r1);
    ReadBack(p.reserved, 0, p.openedAt, 0, r2);
    ReadBack(p.reserved, 0, p.lastSettleAt, 0, r3);
    ReadBack(p.reserved, p.usage, 0, 0, r4);
    ReadBack(p.reserved, p.reservationCap, 0, 0, r5);
    ReadBack(p.reserved, 0, 0, p.state, r6);
    ReadBack(p.reserved, 0, 0, p.bump, r7);
    ReadBack(p.reserved, 0, 0, 0, []);
  }

  /** Every string of 202 bytes, and no other, is the encoding of a record, and of the one it decodes to. */
  lemma Canonical(b: Bytes)
    ensures Decode(b).Decoded? <==> |b| == PAY_SESSION_SPACE
    ensures Decode(b).Decoded? ==> Encode(Decode(b).value) == b
  {
    hide U64Bytes, I64Bytes, ReadBytes32, ReadU64, ReadI64, ReadU8, DecodeTail, EncodeTail;
    WriteBack(b);
    if |b| >= 128 {
      var r1 := ReadBytes32(b).value;
      WriteBack(r1.rest);
      var r2 := ReadBytes32(r1.rest).value;
      WriteBack(r2.rest);
      var r3 := ReadBytes32(r2.rest).value;
      WriteBack(r3.rest);
      var r4 := ReadBytes32(r3.rest).value;
      CanonicalTail(r1.value, r2.value, r3.value, r4.value, r4.rest);
    } else if |b| >= 32 {
      ShortHead(ReadBytes32(b).value.rest);
    }
  }

  lemma ShortHead(b: Bytes)
    requires |b| < 96
    ensures ReadBytes32(b).Decoded? && ReadBytes32(ReadBytes32(b).value.rest).Decoded? ==>
      ReadBytes32(ReadBytes32(ReadBytes32(b).value.rest).value.rest).Malformed?
  {
  }

  lemma CanonicalTail(subscription: Bytes32, merchant: Bytes32, merchantAta: Bytes32, facilitator: Bytes32, b: Bytes)
    ensures var d := DecodeTail(subscription, merchant, merchantAta, facilitator, b);
      && (d.Decoded? <==> |b| == 74)
      && (d.Decoded? ==>
            && EncodeTail(d.value) == b
            && d.value.subscription == subscription && d.value.merchant == merchant
            && d.value.merchantAta == merchantAta && d.value.facilitator == facilitator)
  {
    hide U64Bytes, I64Bytes, ReadBytes32, ReadU64, ReadI64, ReadU8;
    WriteBack(b);
    if |b| >= 8 {
      var r1 := ReadU64(b).value.rest;
      WriteBack(r1);
      if |r1| >= 8 {
        var r2 := ReadI64(r1).value.rest;
        WriteBack(r2);
        if |r2| >= 8 {
          var r3 := ReadI64(r2).value.rest;
          WriteBack(r3);
          if |r3| >= 8 {
            var r4 := ReadU64(r3).value.rest;
            WriteBack(r4);
            if |r4| >= 8 {
              var r5 := ReadU64(r4).value.rest;
              WriteBack(r5);
              if |r5| >= 1 {
                var r6 := ReadU8(r5).value.rest;
                WriteBack(r6);
                if |r6| >= 1 { WriteBack(ReadU8(r6).value.rest); }
              }
            }
          }
        }
      }
    }
  }

  // ----- accounts -----

  function TryDecode(data: Bytes): Decoded<SessionRecord> {
    if |data| < DISCRIMINATOR_LEN then Malformed(TooShort) else Decode(data[DISCRIMINATOR_LEN..])
  }

  function DecodeOwned(account: Account, program: Bytes32, expected: Discriminator): Decoded<SessionRecord> {
    if account.owner != program then Malformed(WrongOwner)
    else if |account.data| < DISCRIMINATOR_LEN then Malformed(TooShort)
    else if account.data[..DISCRIMINATOR_LEN] != expected then Malformed(WrongDiscriminator)
    else Decode(account.data[DISCRIMINATOR_LEN..])
  }

  /**
   * The strict decoder accepts exactly the accounts the program itself can have written: owner, type tag and a
   * whole record.
   */
  lemma StrictDecode(account: Account, program: Bytes32, expected: Discriminator, p: SessionRecord)
    ensures DecodeOwned(account, program, expected) == Decoded(p)
       <==> account.owner == program && account.data == expected + Encode(p)
  {
    hide Encode, Decode;
    RoundTrip(p);
    if |account.data| >= DISCRIMINATOR_LEN {
      assert account.data == account.data[..DISCRIMINATOR_LEN] + account.data[DISCRIMINATOR_LEN..];
      Canonical(account.data[DISCRIMINATOR_LEN..]);
    }
  }

  /** Where every field lies in a stored account, by byte. */
  lemma Offsets(tag: Discriminator, p: SessionRecord)
    ensures var data := tag + Encode(p);
      && |data| == 210
      && data[0..8] == tag
      && data[8..40] == p.subscription
      && data[40..72] == p.merchant
      && data[72..104] == p.merchantAta
      && data[104..136] == p.facilitator
      && U64Of(data[136..144]) == p.sessionId
      && I64Of(data[144..152]) == p.openedAt
      && I64Of(data[152..160]) == p.lastSettleAt
      && U64Of(data[160..168]) == p.usage
      && U64Of(data[168..176]) == p.reservationCap
      && data[176] == p.state
      && data[177] == p.bump
      && data[178..210] == p.reserved
  {
    hide U64Bytes, I64Bytes, U64Of, I64Of;
    TailOffsets(p);
    hide EncodeTail;
    var data, tail := tag + Encode(p), EncodeTail(p);
    var head := tag + p.subscription + p.merchant + p.merchantAta + p.facilitator;
    assert data == head + tail && |head| == 136;
    assert data[8..40] == p.subscription && data[40..72] == p.merchant;
    assert data[72..104] == p.merchantAta && data[104..136] == p.facilitator;
    assert data[136..144] == tail[0..8] && data[144..152] == tail[8..16] && data[152..160] == tail[16..24];
    assert data[160..168] == tail[24..32] && data[168..176] == tail[32..40] && data[178..210] == tail[42..74];
  }

  lemma TailOffsets(p: SessionRecord)
    ensures var tail := EncodeTail(p);
      && |tail| == 74
      && U64Of(tail[0..8]) == p.sessionId && I64Of(tail[8..16]) == p.openedAt && I64Of(tail[16..24]) == p.lastSettleAt
      && U64Of(tail[24..32]) == p.usage && U64Of(tail[32..40]) == p.reservationCap
      && tail[40] == p.state && tail[41] == p.bump && tail[42..74] == p.reserved
  {
    hide U64Bytes, I64Bytes, U64Of, I64Of;
    IntegersRoundTrip(p.sessionId, p.openedAt, U64Bytes(0));
    IntegersRoundTrip(p.usage, p.lastSettleAt, U64Bytes(0));
    IntegersRoundTrip(p.reservationCap, 0, U64Bytes(0));
    var tail := EncodeTail(p);
    var i0, i1, i2, i3, i4 := U64Bytes(p.sessionId), I64Bytes(p.openedAt), I64Bytes(p.lastSettleAt), U64Bytes(p.usage),
                              U64Bytes(p.reservationCap);
    assert tail == i0 + i1 + i2 + i3 + i4 + [p.state] + [p.bump] + p.reserved;
    assert tail[0..8] == i0 && tail[8..16] == i1 && tail[16..24] == i2 && tail[24..32] == i3 && tail[32..40] == i4;
    assert tail[42..74] == p.reserved;
  }

  // ----- the scans -----

  /** What `getProgramAccounts` filters on the server: the type tag at 0 and the parent's address at 8. */
  predicate PassesFilters(data: Bytes, tag: Discriminator, subscription: Bytes32) {
    |data| >= SUBSCRIPTION_OFFSET + 32
    && data[..DISCRIMINATOR_LEN] == tag && data[SUBSCRIPTION_OFFSET..SUBSCRIPTION_OFFSET + 32] == subscription
  }

  function OpenRecords(returned: seq<Bytes>, subscription: Bytes32): Decoded<seq<SessionRecord>> {
    if returned == [] then Decoded([])
    else
      var found :- OpenRecords(returned[..|returned| - 1], subscription);
      var p :- TryDecode(returned[|returned| - 1]);
      Decoded(if p.subscription == subscription && p.state == STATE_OPEN then found + [p] else found)
  }

  /** The Rust scan: every account is decoded in full; one that does not decode fails the scan. */
  method ScanDecoded(returned: seq<Bytes>, subscription: Bytes32) returns (found: Decoded<seq<SessionRecord>>)
    ensures found == OpenRecords(returned, subscription)
  {
    var open: seq<SessionRecord> := [];
    for i := 0 to |returned|
      invariant OpenRecords(returned[..i], subscription) == Decoded(open)
    {
      assert returned[..i + 1][..i] == returned[..i];
      var decoded := TryDecode(returned[i]);
      if decoded.Malformed? {
        FailsFor(returned, i + 1, subscription);
        return Malformed(decoded.error);
      }
      if decoded.value.subscription == subscription && decoded.value.state == STATE_OPEN {
        open := open + [decoded.value];
      }
    }
    assert returned[..|returned|] == returned;
    found := Decoded(open);
  }

  lemma {:induction false} FailsFor(returned: seq<Bytes>, n: nat, subscription: Bytes32)
    requires n <= |returned| && OpenRecords(returned[..n], subscription).Malformed?
    ensures OpenRecords(returned, subscription) == OpenRecords(returned[..n], subscription)
    decreases |returned|
  {
    hide TryDecode;
    if n == |returned| {
      assert returned[..n] == returned;
    } else {
      assert returned[..|returned| - 1][..n] == returned[..n];
      FailsFor(returned[..|returned| - 1], n, subscription);
    }
  }

  predicate LooksOpen(data: Bytes) {
    |data| >= STATE_OFFSET + 1 && data[STATE_OFFSET] == STATE_OPEN
  }

  function SessionIdIn(data: Bytes): U64
    requires LooksOpen(data)
  {
    U64Of(data[SESSION_ID_OFFSET..SESSION_ID_OFFSET + 8])
  }

  function OpenIds(returned: seq<Bytes>): seq<U64> {
    if returned == [] then []
    else
      var rest, last := OpenIds(returned[..|returned| - 1]), returned[|returned| - 1];
      if LooksOpen(last) then rest + [SessionIdIn(last)] else rest
  }

  predicate Ascending(ids: seq<U64>) {
    forall i :: 0 < i < |ids| ==> ids[i - 1] <= ids[i]
  }

  function Inserted(ids: seq<U64>, id: U64): (r: seq<U64>)
    requires Ascending(ids)
    ensures Ascending(r) && |r| == |ids| + 1
    ensures r[0] == if ids == [] then id else Min(ids[0], id)
    ensures multiset(r) == multiset(ids) + multiset{id}
  {
    if ids == [] || id <= ids[0] then [id] + ids
    else
      assert ids == [ids[0]] + ids[1..];
      [ids[0]] + Inserted(ids[1..], id)
  }

  function Sorted(ids: seq<U64>): (r: seq<U64>)
    ensures Ascending(r) && multiset(r) == multiset(ids)
  {
    if ids == [] then []
    else
      assert ids == ids[..|ids| - 1] + [ids[|ids| - 1]];
      Inserted(Sorted(ids[..|ids| - 1]), ids[|ids| - 1])
  }

  /** The TypeScript scan: two byte offsets, short accounts skipped, ids sorted ascending. */
  method ScanOffsets(returned: seq<Bytes>) returns (alive: seq<U64>)
    ensures alive == Sorted(OpenIds(returned))
  {
    alive := [];
    for i := 0 to |returned|
      invariant alive == OpenIds(returned[..i])
    {
      assert returned[..i + 1][..i] == returned[..i];
      var data := returned[i];
      if |data| < STATE_OFFSET + 1 { continue; }
      if data[STATE_OFFSET] != STATE_OPEN { continue; }
      alive := alive + [U64Of(data[SESSION_ID_OFFSET..SESSION_ID_OFFSET + 8])];
    }
    assert returned[..|returned|] == returned;
    alive := Sort(alive);
  }

  method Sort(ids: seq<U64>) returns (sorted: seq<U64>)
    ensures sorted == Sorted(ids)
  {
    hide Ascending, Inserted;
    sorted := [];
    for i := 0 to |ids|
      invariant sorted == Sorted(ids[..i])
    {
      assert ids[..i + 1][..i] == ids[..i] && ids[..i + 1][i] == ids[i];
      sorted := Inserted(sorted, ids[i]);
    }
    assert ids[..|ids|] == ids;
  }

  lemma {:induction false} HeadIsLeast(ids: seq<U64>, x: U64)
    requires Ascending(ids) && x in ids
    ensures ids[0] <= x
  {
    if x != ids[0] {
      assert x in ids[1..];
      HeadIsLeast(ids[1..], x);
      assert ids[0] <= ids[1];
    }
  }

  /** Sorting leaves no choice: two ascending lists of the same ids are the same list. */
  lemma {:induction false} SortedUnique(a: seq<U64>, b: seq<U64>)
    requires Ascending(a) && Ascending(b) && multiset(a) == multiset(b)
    ensures a == b
  {
    if a == [] {
      assert |multiset(b)| == 0;
    } else {
      SameHead(a, b);
      HeadsOff(a, b);
      SortedUnique(a[1..], b[1..]);
      assert a == [a[0]] + a[1..] && b == [b[0]] + b[1..];
    }
  }

  lemma SameHead(a: seq<U64>, b: seq<U64>)
    requires Ascending(a) && Ascending(b) && multiset(a) == multiset(b) && a != []
    ensures b != [] && a[0] == b[0]
  {
    hide Ascending;
    assert a[0] in multiset(a) && a[0] in multiset(b);
    HeadIsLeast(b, a[0]);
    assert b[0] in multiset(b) && b[0] in multiset(a);
    HeadIsLeast(a, b[0]);
  }

  lemma HeadsOff(a: seq<U64>, b: seq<U64>)
    requires a != [] && b != [] && a[0] == b[0] && multiset(a) == multiset(b)
    ensures multiset(a[1..]) == multiset(b[1..])
  {
    assert a == [a[0]] + a[1..] && b == [b[0]] + b[1..];
    assert multiset(a[1..]) == multiset(a) - multiset{a[0]};
    assert multiset(b[1..]) == multiset(b) - multiset{b[0]};
  }

  // ----- the scans agree -----

  function IdsOf(records: seq<SessionRecord>): seq<U64> {
    seq(|records|, i requires 0 <= i < |records| => records[i].sessionId)
  }

  /**
   * What each scan keeps: the decoded records of the parent whose state is 0, and the ids at bytes 136 to 143 of
   * accounts of 177 bytes or more whose byte 176 is 0.
   */
  lemma {:induction false} ScansKeep(returned: seq<Bytes>, subscription: Bytes32, p: SessionRecord, id: U64)
    ensures OpenRecords(returned, subscription).Decoded? ==>
      (p in OpenRecords(returned, subscription).value <==>
         && p.subscription == subscription && p.state == 0
         && exists i :: 0 <= i < |returned| && TryDecode(returned[i]) == Decoded(p))
    ensures id in OpenIds(returned) <==>
      exists i :: 0 <= i < |returned| && |returned[i]| >= 177 && returned[i][176] == 0 && U64Of(returned[i][136..144]) == id
  {
    hide TryDecode, U64Of;
    if returned != [] {
      var front, last := returned[..|returned| - 1], returned[|returned| - 1];
      ScansKeep(front, subscription, p, id);
      assert returned == front + [last];
    }
  }

  lemma Recognised(data: Bytes, tag: Discriminator, subscription: Bytes32)
    requires PassesFilters(data, tag, subscription)
    ensures TryDecode(data).Decoded? <==> |data| == DISCRIMINATOR_LEN + PAY_SESSION_SPACE
    ensures TryDecode(data).Decoded? ==>
      var p := TryDecode(data).value;
      && p.subscription == subscription && (p.state == STATE_OPEN <==> LooksOpen(data))
      && (LooksOpen(data) ==> SessionIdIn(data) == p.sessionId)
  {
    hide Decode, Encode, U64Of;
    Canonical(data[DISCRIMINATOR_LEN..]);
    if TryDecode(data).Decoded? {
      assert data == tag + data[DISCRIMINATOR_LEN..];
      Offsets(tag, TryDecode(data).value);
    }
  }

  /**
   * The scanners agree: on any accounts the RPC filters let through for one parent, in any order, the full-decode
   * scan succeeds if and only if every account has the stored length, and the byte-offset scan then returns
   * exactly the ids of the records it keeps, ascending.
   */
  lemma {:induction false} ScannersAgree(returned: seq<Bytes>, tag: Discriminator, subscription: Bytes32)
    requires forall i :: 0 <= i < |returned| ==> PassesFilters(returned[i], tag, subscription)
    ensures OpenRecords(returned, subscription).Decoded?
       <==> forall i :: 0 <= i < |returned| ==> |returned[i]| == DISCRIMINATOR_LEN + PAY_SESSION_SPACE
    ensures OpenRecords(returned, subscription).Decoded? ==>
      var ids := IdsOf(OpenRecords(returned, subscription).value);
      && Sorted(OpenIds(returned)) == Sorted(ids)
      && Ascending(Sorted(ids)) && multiset(Sorted(ids)) == multiset(ids)
  {
    SameIds(returned, tag, subscription);
  }

  lemma {:induction false} SameIds(returned: seq<Bytes>, tag: Discriminator, subscription: Bytes32)
    requires forall i :: 0 <= i < |returned| ==> PassesFilters(returned[i], tag, subscription)
    ensures OpenRecords(returned, subscription).Decoded?
       <==> forall i :: 0 <= i < |returned| ==> |returned[i]| == DISCRIMINATOR_LEN + PAY_SESSION_SPACE
    ensures OpenRecords(returned, subscription).Decoded? ==>
      OpenIds(returned) == IdsOf(OpenRecords(returned, subscription).value)
  {
    hide TryDecode, LooksOpen, SessionIdIn, PassesFilters;
    if returned != [] {
      var front, last := returned[..|returned| - 1], returned[|returned| - 1];
      SameIds(front, tag, subscription);
      Recognised(last, tag, subscription);
      assert returned == front + [last];
    }
  }
}
