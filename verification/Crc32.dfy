/**
 * The checksum of a frame: CRC-32 as in section 8 of RFC 1952, one message bit at a time.
 *
 * The register is a sequence of 32 bits, least significant first. Every fact about error detection
 * rests on one observation: the bit shifted in at the top says which way the step went, so a step
 * can be undone.
 */
module Crc32 {
  import opened Bytes

  type Bits = seq<bool>
  type Register = r: Bits | |r| == 32 witness BitsOf(0, 32)

  /** The `k` low bits of `n`, least significant first. */
  function BitsOf(n: nat, k: nat): (b: Bits)
    ensures |b| == k
  {
    if k == 0 then [] else [n % 2 == 1] + BitsOf(n / 2, k - 1)
  }

  function Value(b: Bits): nat {
    if b == [] then 0 else (if b[0] then 1 else 0) + 2 * Value(b[1..])
  }

  function Number(r: Register): (n: U32)
    ensures n == Value(r)
  {
    ValueBound(r);
    Value(r)
  }

  const POLYNOMIAL: Register := BitsOf(0xEDB8_8320, 32)

  function Xor(a: Bits, b: Bits): (r: Bits)
    requires |a| == |b|
    ensures |r| == |a|
    ensures forall i :: 0 <= i < |a| ==> r[i] == (a[i] != b[i])
  {
    if a == [] then [] else [a[0] != b[0]] + Xor(a[1..], b[1..])
  }

  function Not(a: Bits): (r: Bits)
    ensures |r| == |a|
    ensures forall i :: 0 <= i < |a| ==> r[i] == !a[i]
  {
    if a == [] then [] else [!a[0]] + Not(a[1..])
  }

  /** One right shift of the register, reduced by the polynomial when a one drops out. */
  function Shift(c: Register): Register {
    if c[0] then Xor(c[1..] + [false], POLYNOMIAL) else c[1..] + [false]
  }

  /** One message bit: it is added to the low bit of the register, which is then shifted out. */
  function Step(c: Register, bit: bool): Register {
    Shift([c[0] != bit] + c[1..])
  }

  function Feed(c: Register, message: Bits): Register
    decreases |message|
  {
    if message == [] then c else Feed(Step(c, message[0]), message[1..])
  }

  const BYTE_WIDTH: nat := 8

  function ByteBits(b: Byte): (bits: Bits)
    ensures |bits| == 8
  {
    BitsOf(b, BYTE_WIDTH)
  }

  function MessageBits(data: seq<Byte>): (b: Bits)
    ensures |b| == 8 * |data|
  {
    if data == [] then [] else ByteBits(data[0]) + MessageBits(data[1..])
  }

  const ONES: Register := BitsOf(0xFFFF_FFFF, 32)

  function Hash(data: seq<Byte>): U32 {
    Number(Not(Feed(ONES, MessageBits(data))))
  }

  // ---- Bits and numbers ----

  function Pow2(k: nat): nat {
    if k == 0 then 1 else 2 * Pow2(k - 1)
  }

  lemma {:induction false} ValueBelow(b: Bits)
    ensures Value(b) < Pow2(|b|)
  {
    if b != [] {
      ValueBelow(b[1..]);
    }
  }

  lemma ValueBound(b: Register)
    ensures Value(b) < U32_SIZE
  {
    ValueBelow(b);
    Pow2Of32();
  }

  lemma Pow2Of32()
    ensures Pow2(8) == 256 && Pow2(31) == 0x8000_0000 && Pow2(32) == U32_SIZE
  {
    assert Pow2(4) == 16 && Pow2(8) == 256;
    assert Pow2(12) == 0x1000 && Pow2(16) == 0x1_0000;
    assert Pow2(20) == 0x10_0000 && Pow2(24) == 0x100_0000;
    assert Pow2(28) == 0x1000_0000;
  }

  lemma LowBit(x: bool, y: bool, m: nat, n: nat)
    requires (if x then 1 else 0) + 2 * m == (if y then 1 else 0) + 2 * n
    ensures x == y && m == n
  {
  }

  lemma {:induction false} ValueInjective(a: Bits, b: Bits)
    requires |a| == |b| && Value(a) == Value(b)
    ensures a == b
  {
    if a != [] {
      LowBit(a[0], b[0], Value(a[1..]), Value(b[1..]));
      ValueInjective(a[1..], b[1..]);
      SameHalves(a, b, 1);
    }
  }

  lemma {:induction false} BitsOfInjective(m: nat, n: nat, k: nat)
    requires m < Pow2(k) && n < Pow2(k)
    requires BitsOf(m, k) == BitsOf(n, k)
    ensures m == n
  {
    if k > 0 {
      assert BitsOf(m, k)[0] == BitsOf(n, k)[0];
      assert BitsOf(m, k)[1..] == BitsOf(m / 2, k - 1) && BitsOf(n, k)[1..] == BitsOf(n / 2, k - 1);
      BitsOfInjective(m / 2, n / 2, k - 1);
    }
  }

  lemma ByteBitsInjective(a: Byte, b: Byte)
    requires ByteBits(a) == ByteBits(b)
    ensures a == b
  {
    Pow2Of32();
    BitsOfInjective(a, b, BYTE_WIDTH);
  }

  lemma {:induction false} MessageBitsAppend(a: seq<Byte>, b: seq<Byte>)
    ensures MessageBits(a + b) == MessageBits(a) + MessageBits(b)
  {
    if a == [] {
      assert a + b == b;
    } else {
      var c := a + b;
      assert c[1..] == a[1..] + b;
      MessageBitsAppend(a[1..], b);
    }
  }

  lemma {:induction false} MessageBitsInjective(a: seq<Byte>, b: seq<Byte>)
    requires |a| == |b| && MessageBits(a) == MessageBits(b)
    ensures a == b
  {
    if a != [] {
      assert MessageBits(a)[..8] == ByteBits(a[0]) && MessageBits(b)[..8] == ByteBits(b[0]);
      assert MessageBits(a)[8..] == MessageBits(a[1..]) && MessageBits(b)[8..] == MessageBits(b[1..]);
      ByteBitsInjective(a[0], b[0]);
      MessageBitsInjective(a[1..], b[1..]);
      SameHalves(a, b, 1);
    }
  }

  // ---- Undoing a step ----

  lemma {:induction false} TopBit(n: nat, k: nat)
    requires 0 < k && n < Pow2(k)
    ensures BitsOf(n, k)[k - 1] == (n >= Pow2(k - 1))
  {
    if k > 1 {
      TopBit(n / 2, k - 1);
      assert BitsOf(n, k)[k - 1] == BitsOf(n / 2, k - 1)[k - 2];
    }
  }

  lemma TopOfPolynomial()
    ensures POLYNOMIAL[31]
  {
    Pow2Of32();
    TopBit(0xEDB8_8320, 32);
  }

  /** `a` and `b` hold the same bits from position `k` up. */
  ghost predicate SameFrom(a: Register, b: Register, k: nat) {
    forall i :: k <= i < 32 ==> a[i] == b[i]
  }

  /** Registers that agree from `k` up after a step went the same way and agreed from `k + 1` up before. */
  lemma StepBack(c: Register, d: Register, x: bool, y: bool, k: nat)
    requires k <= 31 && SameFrom(Step(c, x), Step(d, y), k)
    ensures (c[0] != x) == (d[0] != y)
    ensures SameFrom(c, d, k + 1)
  {
    TopOfPolynomial();
    var p, q := c[1..] + [false], d[1..] + [false];
    assert Step(c, x)[31] == (c[0] != x) && Step(d, y)[31] == (d[0] != y);
    forall i | k + 1 <= i < 32
      ensures c[i] == d[i]
    {
      assert Step(c, x)[i - 1] == Step(d, y)[i - 1];
      assert p[i - 1] == c[i] && q[i - 1] == d[i];
    }
  }

  lemma {:induction false} FeedAppend(c: Register, a: Bits, b: Bits)
    ensures Feed(c, a + b) == Feed(Feed(c, a), b)
    decreases |a|
  {
    if a == [] {
      assert a + b == b;
    } else {
      var m := a + b;
      assert m[1..] == a[1..] + b;
      FeedAppend(Step(c, a[0]), a[1..], b);
    }
  }

  /** The same message from different registers leaves different registers. */
  lemma {:induction false} FeedInjective(c: Register, d: Register, message: Bits)
    requires Feed(c, message) == Feed(d, message)
    ensures c == d
    decreases |message|
  {
    if message != [] {
      FeedInjective(Step(c, message[0]), Step(d, message[0]), message[1..]);
      StepBack(c, d, message[0], message[0], 0);
      assert forall i :: 0 <= i < 32 ==> c[i] == d[i];
    }
  }

  /** Up to 32 message bits before equal registers: the registers before them agree above their length. */
  lemma {:induction false} FeedBack(c: Register, d: Register, a: Bits, b: Bits)
    requires |a| == |b| <= 32 && Feed(c, a) == Feed(d, b)
    ensures SameFrom(c, d, |a|)
    ensures a != [] ==> (c[0] != a[0]) == (d[0] != b[0])
    decreases |a|
  {
    if a != [] {
      FeedBack(Step(c, a[0]), Step(d, b[0]), a[1..], b[1..]);
      StepBack(c, d, a[0], b[0], |a| - 1);
    }
  }

  /** From one register, two messages of at most 32 bits that end in the same register are the same. */
  lemma {:induction false} BurstInjective(c: Register, a: Bits, b: Bits)
    requires |a| == |b| <= 32 && Feed(c, a) == Feed(c, b)
    ensures a == b
    decreases |a|
  {
    if a != [] {
      FeedBack(c, c, a, b);
      BurstInjective(Step(c, a[0]), a[1..], b[1..]);
      SameHalves(a, b, 1);
    }
  }

  lemma HashSplit(front: seq<Byte>, window: seq<Byte>, back: seq<Byte>)
    ensures Feed(ONES, MessageBits(front + window + back))
         == Feed(Feed(Feed(ONES, MessageBits(front)), MessageBits(window)), MessageBits(back))
  {
    MessageBitsAppend(front + window, back);
    MessageBitsAppend(front, window);
    FeedAppend(ONES, MessageBits(front) + MessageBits(window), MessageBits(back));
    FeedAppend(ONES, MessageBits(front), MessageBits(window));
  }

  /** Any change confined to at most four consecutive bytes changes the checksum. */
  lemma BurstChangesHash(front: seq<Byte>, a: seq<Byte>, b: seq<Byte>, back: seq<Byte>)
    requires |a| == |b| <= 4 && a != b
    ensures Hash(front + a + back) != Hash(front + b + back)
  {
    if Hash(front + a + back) == Hash(front + b + back) {
      var r, s := Feed(ONES, MessageBits(front + a + back)), Feed(ONES, MessageBits(front + b + back));
      ValueInjective(Not(r), Not(s));
      assert forall i :: 0 <= i < 32 ==> Not(r)[i] == !r[i] && Not(s)[i] == !s[i];
      assert r == s;
      HashSplit(front, a, back);
      HashSplit(front, b, back);
      var c := Feed(ONES, MessageBits(front));
      FeedInjective(Feed(c, MessageBits(a)), Feed(c, MessageBits(b)), MessageBits(back));
      BurstInjective(c, MessageBits(a), MessageBits(b));
      MessageBitsInjective(a, b);
    }
  }

  // ---- The table form of the sample code ----

  function Zeros(k: nat): (b: Bits)
    ensures |b| == k && forall i :: 0 <= i < k ==> !b[i]
  {
    if k == 0 then [] else [false] + Zeros(k - 1)
  }

  function ShiftBy(c: Register, k: nat): Register
    decreases k
  {
    if k == 0 then c else ShiftBy(Shift(c), k - 1)
  }

  /** What the sample code's `make_crc_table` puts at the index whose bits are `index`. */
  function TableEntry(index: Bits): Register
    requires |index| == 8
  {
    ShiftBy(index + Zeros(24), 8)
  }

  /** What its `update_crc` does with one byte. */
  function TableStep(c: Register, b: Byte): Register {
    Xor(TableEntry(Xor(c[..8], ByteBits(b))), c[8..] + Zeros(8))
  }

  function TableFeed(c: Register, data: seq<Byte>): Register
    decreases |data|
  {
    if data == [] then c else TableFeed(TableStep(c, data[0]), data[1..])
  }

  lemma ShiftIsLinear(a: Register, b: Register)
    ensures Shift(Xor(a, b)) == Xor(Shift(a), Shift(b))
  {
    var x := Xor(a, b);
    var p, q, r := a[1..] + [false], b[1..] + [false], x[1..] + [false];
    forall i | 0 <= i < 32
      ensures Shift(x)[i] == Xor(Shift(a), Shift(b))[i]
    {
      assert r[i] == (p[i] != q[i]);
    }
  }

  lemma {:induction false} ShiftByIsLinear(a: Register, b: Register, k: nat)
    ensures ShiftBy(Xor(a, b), k) == Xor(ShiftBy(a, k), ShiftBy(b, k))
    decreases k
  {
    if k > 0 {
      ShiftIsLinear(a, b);
      ShiftByIsLinear(Shift(a), Shift(b), k - 1);
    }
  }

  /** As long as only zeros drop out, shifting is all that happens. */
  lemma {:induction false} ShiftOfZeros(c: Register, k: nat)
    requires k <= 32 && forall i :: 0 <= i < k ==> !c[i]
    ensures ShiftBy(c, k) == c[k..] + Zeros(k)
    decreases k
  {
    if k > 0 {
      var d := Shift(c);
      assert d == c[1..] + [false];
      ShiftOfZeros(d, k - 1);
      assert d[k - 1..] + Zeros(k - 1) == c[k..] + ([false] + Zeros(k - 1));
    } else {
      assert c[0..] + [] == c;
    }
  }

  /** Feeding a few bits is adding them all to the register first and then shifting. */
  lemma {:induction false} FeedIsShiftBy(c: Register, m: Bits)
    requires |m| <= 32
    ensures Feed(c, m) == ShiftBy(Xor(c, m + Zeros(32 - |m|)), |m|)
    decreases |m|
  {
    hide Shift, Step, BitsOf, Zeros;
    var whole := m + Zeros(32 - |m|);
    if m == [] {
      assert Xor(c, whole) == c;
    } else {
      var first := [c[0] != m[0]] + c[1..];
      var rest := [false] + m[1..] + Zeros(32 - |m|);
      assert Xor(c, whole) == Xor(first, rest);
      ShiftIsLinear(first, rest);
      ShiftPastFalse(rest, m[1..] + Zeros(32 - |m[1..]|));
      StepIsShift(c, m[0]);
      FeedIsShiftBy(Step(c, m[0]), m[1..]);
    }
  }

  /** A leading false drops out and a false comes in at the end. */
  lemma ShiftPastFalse(rest: Register, next: Bits)
    requires !rest[0] && |next| == 32 && !next[31]
    requires forall i :: 0 <= i < 31 ==> next[i] == rest[i + 1]
    ensures Shift(rest) == next
  {
    hide BitsOf, Xor;
    assert Shift(rest) == rest[1..] + [false];
  }

  lemma StepIsShift(c: Register, bit: bool)
    ensures Step(c, bit) == Shift([c[0] != bit] + c[1..])
  {
  }

  lemma TableStepIsFeed(c: Register, b: Byte)
    ensures TableStep(c, b) == Feed(c, ByteBits(b))
  {
    var low := Xor(c[..8], ByteBits(b)) + Zeros(24);
    var high := Zeros(8) + c[8..];
    assert Xor(c, ByteBits(b) + Zeros(24)) == Xor(low, high);
    FeedIsShiftBy(c, ByteBits(b));
    ShiftByIsLinear(low, high, 8);
    ShiftOfZeros(high, 8);
    assert high[8..] == c[8..];
  }

  /** The byte-wise table form computes the bit-wise checksum. */
  lemma {:induction false} TableFeedIsFeed(c: Register, data: seq<Byte>)
    ensures TableFeed(c, data) == Feed(c, MessageBits(data))
    decreases |data|
  {
    if data != [] {
      TableStepIsFeed(c, data[0]);
      TableFeedIsFeed(TableStep(c, data[0]), data[1..]);
      FeedAppend(c, ByteBits(data[0]), MessageBits(data[1..]));
    }
  }

  /** The sample code's loop over a buffer. */
  method Crc(data: seq<Byte>) returns (crc: U32)
    ensures crc == Hash(data)
  {
    var c := ONES;
    var n := 0;
    while n < |data|
      invariant n <= |data|
      invariant TableFeed(c, data[n..]) == TableFeed(ONES, data)
    {
      assert data[n..][1..] == data[n + 1..];
      c := TableStep(c, data[n]);
      n := n + 1;
    }
    TableFeedIsFeed(ONES, data);
    crc := Number(Not(c));
  }

  // ---- A message with its checksum behind it ----

  lemma {:induction false} ValueOfBits(n: nat, k: nat)
    requires n < Pow2(k)
    ensures Value(BitsOf(n, k)) == n
  {
    if k > 0 {
      ValueOfBits(n / 2, k - 1);
      assert BitsOf(n, k)[1..] == BitsOf(n / 2, k - 1);
    }
  }

  lemma {:induction false} ValueAppend(a: Bits, b: Bits)
    ensures Value(a + b) == Value(a) + Pow2(|a|) * Value(b)
  {
    if a == [] {
      assert a + b == b;
    } else {
      assert (a + b)[1..] == a[1..] + b;
      ValueAppend(a[1..], b);
      Doubled(Pow2(|a| - 1), Value(b));
    }
  }

  lemma Doubled(p: nat, v: nat)
    ensures (2 * p) * v == 2 * (p * v)
  {
  }

  lemma ByteInFront(b: Byte, data: seq<Byte>)
    ensures Value(MessageBits([b] + data)) == b as int + 256 * Value(MessageBits(data))
  {
    Pow2Of32();
    ValueOfBits(b, BYTE_WIDTH);
    ValueAppend(ByteBits(b), MessageBits(data));
    assert ([b] + data)[1..] == data;
  }

  /** The four bytes of a number, low byte first, carry its bits in the register's order. */
  lemma NumberBits(r: Register)
    ensures MessageBits(PutU32(Number(r))) == r
  {
    hide MessageBits, Value;
    var p := PutU32(Number(r));
    ByteInFront(p[0], p[1..]);
    ByteInFront(p[1], p[2..]);
    ByteInFront(p[2], p[3..]);
    ByteInFront(p[3], []);
    assert p == [p[0]] + p[1..] && p[1..] == [p[1]] + p[2..] && p[2..] == [p[2]] + p[3..] && p[3..] == [p[3]] + [];
    assert Value(MessageBits([])) == 0 by { NoBits(); }
    ValueInjective(MessageBits(p), r);
  }

  lemma NoBits()
    ensures Value(MessageBits([])) == 0
  {
  }

  /** Where the register always ends when a message is followed by its own checksum. */
  function Residue(): Register {
    ShiftBy(Not(Zeros(32)), 32)
  }

  lemma CheckedMessage(data: seq<Byte>)
    ensures Feed(ONES, MessageBits(data + PutU32(Hash(data)))) == Residue()
  {
    hide PutU32, Feed, MessageBits, ShiftBy, Number, Value;
    var c, crc := Feed(ONES, MessageBits(data)), PutU32(Hash(data));
    MessageBitsAppend(data, crc);
    FeedAppend(ONES, MessageBits(data), MessageBits(crc));
    NumberBits(Not(c));
    FeedIsShiftBy(c, Not(c));
    assert Not(c) + Zeros(0) == Not(c);
    assert Xor(c, Not(c)) == Not(Zeros(32));
  }

  /** Any change confined to at most four consecutive bytes, the checksum's own included, breaks the match. */
  lemma BurstBreaksMatch(data: seq<Byte>, front: seq<Byte>, a: seq<Byte>, b: seq<Byte>, back: seq<Byte>)
    requires |a| == |b| <= 4 && a != b && data + PutU32(Hash(data)) == front + a + back
    ensures forall other :: front + b + back != other + PutU32(Hash(other))
  {
    hide PutU32, Feed, MessageBits, Hash;
    forall other | front + b + back == other + PutU32(Hash(other))
      ensures false
    {
      CheckedMessage(data);
      CheckedMessage(other);
      HashSplit(front, a, back);
      HashSplit(front, b, back);
      var c := Feed(ONES, MessageBits(front));
      FeedInjective(Feed(c, MessageBits(a)), Feed(c, MessageBits(b)), MessageBits(back));
      BurstInjective(c, MessageBits(a), MessageBits(b));
      MessageBitsInjective(a, b);
    }
  }
}
