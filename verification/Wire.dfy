/** Little-endian integers as the Borsh encoding writes them, and a reader that consumes bytes from the front. */
module Wire {
  import opened Integers

  type Byte = x: int | 0 <= x <= U8_MAX
  type Bytes = seq<Byte>
  type Bytes32 = b: Bytes | |b| == 32 witness seq(32, _ => 0)

  datatype DecodeError = WrongOwner | TooShort | WrongDiscriminator | BadBody

  datatype Decoded<+T> = Decoded(value: T) | Malformed(error: DecodeError) {
    predicate IsFailure() {
      Malformed?
    }
    function PropagateFailure<U>(): Decoded<U>
      requires Malformed?
    {
      Malformed(error)
    }
    function Extract(): T
      requires Decoded?
    {
      value
    }
  }

  /** What was read, and what is left to read. */
  datatype Read<+T> = Read(value: T, rest: Bytes)

  function Range(width: nat): nat {
    if width == 0 then 1 else 256 * Range(width - 1)
  }

  function FromLe(b: Bytes): (x: nat)
    ensures x < Range(|b|)
  {
    if b == [] then 0 else b[0] + 256 * FromLe(b[1..])
  }

  function ToLe(x: nat, width: nat): (b: Bytes)
    ensures |b| == width
  {
    if width == 0 then [] else [x % 256] + ToLe(x / 256, width - 1)
  }

  lemma {:induction false} FromToLe(x: nat, width: nat)
    requires x < Range(width)
    ensures FromLe(ToLe(x, width)) == x
  {
    if width > 0 {
      assert ToLe(x, width)[1..] == ToLe(x / 256, width - 1);
      FromToLe(x / 256, width - 1);
    }
  }

  lemma {:induction false} ToFromLe(b: Bytes)
    ensures ToLe(FromLe(b), |b|) == b
  {
    if b != [] {
      ToFromLe(b[1..]);
      assert FromLe(b) / 256 == FromLe(b[1..]) && FromLe(b) % 256 == b[0];
    }
  }

  /**
   * The byte at index `i` is the digit of weight 256 to the `i`: the bytes before it make up less than one unit of that
   * weight, and those after it whole multiples of 256 of them. The least significant byte comes first.
   */
  lemma {:induction false} LittleEndian(b: Bytes, i: nat)
    requires i < |b|
    ensures FromLe(b) == FromLe(b[..i]) + Range(i) * (b[i] + 256 * FromLe(b[i + 1..]))
    ensures FromLe(b[..i]) < Range(i)
    decreases i
  {
    if i > 0 {
      LittleEndian(b[1..], i - 1);
      assert b[1..][..i - 1] == b[..i][1..] && b[1..][i..] == b[i + 1..];
      Regroup(256, Range(i - 1), b[i] + 256 * FromLe(b[i + 1..]));
    }
  }

  lemma Regroup(x: int, y: int, z: int)
    ensures x * y * z == x * (y * z)
  {
  }

  lemma Range8()
    ensures Range(8) == U64_MAX + 1
  {
    assert Range(4) == 0x1_0000_0000;
  }

  function U64Bytes(x: U64): (b: Bytes)
    ensures |b| == 8
  {
    ToLe(x, 8)
  }

  function U64Of(b: Bytes): U64
    requires |b| == 8
  {
    Range8();
    FromLe(b)
  }

  /** Two's complement. */
  function I64Bytes(x: I64): (b: Bytes)
    ensures |b| == 8
  {
    ToLe(if x < 0 then x + U64_MAX + 1 else x, 8)
  }

  function I64Of(b: Bytes): I64
    requires |b| == 8
  {
    Range8();
    if FromLe(b) > I64_MAX then FromLe(b) - U64_MAX - 1 else FromLe(b)
  }

  /** Integers and eight-byte strings correspond one to one, for both signednesses. */
  lemma IntegersRoundTrip(x: U64, y: I64, b: Bytes)
    requires |b| == 8
    ensures U64Of(U64Bytes(x)) == x && I64Of(I64Bytes(y)) == y
    ensures U64Bytes(U64Of(b)) == b && I64Bytes(I64Of(b)) == b
  {
    Range8();
    FromToLe(x, 8);
    FromToLe(if y < 0 then y + U64_MAX + 1 else y, 8);
    ToFromLe(b);
  }

  /** What the eight bytes of an integer mean: digits by weight, the first the least significant. */
  lemma EightBytes(b: Bytes)
    requires |b| == 8
    ensures var d: seq<int> := b;
      U64Of(b) == d[0] + 0x100 * d[1] + 0x1_0000 * d[2] + 0x100_0000 * d[3] + 0x1_0000_0000 * d[4]
                  + 0x100_0000_0000 * d[5] + 0x1_0000_0000_0000 * d[6] + 0x100_0000_0000_0000 * d[7]
  {
    hide FromLe;
    NoBytes();
    FourBytes(b);
    FourBytes(b[4..]);
    assert b[4..][4..] == [];
  }

  lemma FourBytes(b: Bytes)
    requires |b| >= 4
    ensures var d: seq<int> := b;
      FromLe(b) == d[0] + 0x100 * d[1] + 0x1_0000 * d[2] + 0x100_0000 * d[3] + 0x1_0000_0000 * FromLe(b[4..])
  {
    hide FromLe;
    PeelAt(b, 0);
    PeelAt(b, 1);
    PeelAt(b, 2);
    PeelAt(b, 3);
    assert b[0..] == b;
    Horner(b[0], b[1], b[2], b[3], FromLe(b), FromLe(b[1..]), FromLe(b[2..]), FromLe(b[3..]), FromLe(b[4..]));
  }

  lemma Horner(d0: int, d1: int, d2: int, d3: int, f0: int, f1: int, f2: int, f3: int, f4: int)
    requires f0 == d0 + 256 * f1 && f1 == d1 + 256 * f2 && f2 == d2 + 256 * f3 && f3 == d3 + 256 * f4
    ensures f0 == d0 + 0x100 * d1 + 0x1_0000 * d2 + 0x100_0000 * d3 + 0x1_0000_0000 * f4
  {
  }

  /** A signed integer is the unsigned one, less 2 to the 64 when the top bit of its last byte is set. */
  lemma TwosComplement(b: Bytes)
    requires |b| == 8
    ensures I64Of(b) == if b[7] < 128 then U64Of(b) else U64Of(b) - 0x1_0000_0000_0000_0000
  {
    EightBytes(b);
    hide FromLe;
  }

  lemma NoBytes()
    ensures FromLe([]) == 0
  {
  }

  lemma PeelAt(b: Bytes, i: nat)
    requires i < |b|
    ensures FromLe(b[i..]) == b[i] + 256 * FromLe(b[i + 1..])
  {
    assert b[i..][1..] == b[i + 1..];
  }

  function Take(b: Bytes, width: nat): Decoded<Read<Bytes>> {
    if |b| < width then Malformed(BadBody) else Decoded(Read(b[..width], b[width..]))
  }

  function ReadBytes32(b: Bytes): Decoded<Read<Bytes32>> {
    var r :- Take(b, 32);
    Decoded(Read(r.value, r.rest))
  }

  function ReadU64(b: Bytes): Decoded<Read<U64>> {
    var r :- Take(b, 8);
    Decoded(Read(U64Of(r.value), r.rest))
  }

  function ReadI64(b: Bytes): Decoded<Read<I64>> {
    var r :- Take(b, 8);
    Decoded(Read(I64Of(r.value), r.rest))
  }

  function ReadU8(b: Bytes): Decoded<Read<U8>> {
    var r :- Take(b, 1);
    Decoded(Read(r.value[0], r.rest))
  }

  /** Every reader undoes its writer and leaves what follows. */
  lemma ReadBack(key: Bytes32, x: U64, y: I64, z: U8, rest: Bytes)
    ensures ReadBytes32(key + rest) == Decoded(Read(key, rest))
    ensures ReadU64(U64Bytes(x) + rest) == Decoded(Read(x, rest))
    ensures ReadI64(I64Bytes(y) + rest) == Decoded(Read(y, rest))
    ensures ReadU8([z] + rest) == Decoded(Read(z, rest))
  {
    IntegersRoundTrip(x, y, U64Bytes(x));
    hide U64Bytes, I64Bytes, U64Of, I64Of;
  }

  /** What a reader consumed is what its writer writes, so nothing is lost. */
  lemma WriteBack(b: Bytes)
    ensures ReadBytes32(b).Decoded? <==> |b| >= 32
    ensures ReadU64(b).Decoded? <==> |b| >= 8
    ensures ReadI64(b).Decoded? <==> |b| >= 8
    ensures ReadU8(b).Decoded? <==> |b| >= 1
    ensures |b| >= 32 ==> ReadBytes32(b).value.value + ReadBytes32(b).value.rest == b
    ensures |b| >= 8 ==> U64Bytes(ReadU64(b).value.value) + ReadU64(b).value.rest == b
    ensures |b| >= 8 ==> I64Bytes(ReadI64(b).value.value) + ReadI64(b).value.rest == b
    ensures |b| >= 1 ==> [ReadU8(b).value.value] + ReadU8(b).value.rest == b
  {
    hide U64Bytes, I64Bytes, U64Of, I64Of;
    if |b| >= 8 { IntegersRoundTrip(0, 0, b[..8]); }
  }
}
