/**
 * Which polynomial `Crc32` has, told by the residue and the check value that are published for CRC-32. Concrete
 * registers are computed as machine words, whose bits are shown to follow the register's.
 */
module Crc32Values {
  import opened Bytes
  import opened Crc32

  // ---- Words ----

  function Mask(i: nat): bv32 {
    if i == 0 then 1 else Mask(i - 1) << 1
  }

  predicate Meets(b: bv32, m: bv32) {
    b & m != 0
  }

  predicate Bit(b: bv32, i: nat) {
    Meets(b, Mask(i))
  }

  /** The register and the word hold the same bits. */
  ghost predicate Agree(c: Register, b: bv32) {
    forall i :: 0 <= i < 32 ==> c[i] == Bit(b, i)
  }

  predicate Single(m: bv32) {
    m & (m - 1) == 0
  }

  lemma XorUnder(a: bv32, b: bv32, m: bv32)
    requires Single(m)
    ensures Meets(a ^ b, m) == (Meets(a, m) != Meets(b, m))
  {
  }

  lemma HalfUnder(b: bv32, m: bv32)
    ensures Meets(b >> 1, m) == Meets(b, m << 1)
  {
  }

  lemma SingleUnder(m: bv32)
    requires Single(m)
    ensures Single(m << 1)
  {
  }

  lemma {:induction false} MaskIsSingle(i: nat)
    ensures Single(Mask(i))
  {
    if i > 0 {
      hide Single;
      MaskIsSingle(i - 1);
      SingleUnder(Mask(i - 1));
    } else {
      assert Single(1);
    }
  }

  lemma XorBit(a: bv32, b: bv32, i: nat)
    ensures Bit(a ^ b, i) == (Bit(a, i) != Bit(b, i))
  {
    hide Meets, Single;
    MaskIsSingle(i);
    XorUnder(a, b, Mask(i));
  }

  lemma NextMask(i: nat)
    ensures Mask(i + 1) == Mask(i) << 1
  {
  }

  lemma HalfBit(b: bv32, i: nat)
    ensures Bit(b >> 1, i) == Bit(b, i + 1)
  {
    hide Meets;
    NextMask(i);
    HalfUnder(b, Mask(i));
  }

  lemma TopMask()
    ensures Mask(32) == 0
  {
    assert Mask(8) == 0x100;
    assert Mask(16) == 0x1_0000;
    assert Mask(24) == 0x100_0000;
  }

  lemma NoTopBit(b: bv32)
    ensures !Bit(b, 32)
  {
    TopMask();
  }

  function Shifted(b: bv32): bv32 {
    if b & 1 != 0 then (b >> 1) ^ 0xEDB8_8320 else b >> 1
  }

  lemma ShiftWord(c: Register, b: bv32)
    requires Agree(c, b) && Agree(POLYNOMIAL, 0xEDB8_8320)
    ensures Agree(Shift(c), Shifted(b))
  {
    hide Bit, Xor, BitsOf;
    var d := c[1..] + [false];
    assert c[0] == Bit(b, 0) && Bit(b, 0) == (b & 1 != 0) by { LowestBit(b); }
    forall i | 0 <= i < 32
      ensures Shift(c)[i] == Bit(Shifted(b), i)
    {
      HalfBit(b, i);
      NoTopBit(b);
      XorBit(b >> 1, 0xEDB8_8320, i);
      assert d[i] == if i < 31 then c[i + 1] else false;
    }
  }

  lemma LowestBit(b: bv32)
    ensures Bit(b, 0) == (b & 1 != 0)
  {
  }

  function ShiftedBy(b: bv32, k: nat): bv32
    decreases k
  {
    if k == 0 then b else ShiftedBy(Shifted(b), k - 1)
  }

  lemma ShiftOnce(c: Register, b: bv32, k: nat)
    ensures k == 0 ==> ShiftBy(c, k) == c && ShiftedBy(b, k) == b
    ensures k > 0 ==> ShiftBy(c, k) == ShiftBy(Shift(c), k - 1) && ShiftedBy(b, k) == ShiftedBy(Shifted(b), k - 1)
  {
    hide Shift, Shifted;
  }

  lemma {:induction false} ShiftByWord(c: Register, b: bv32, k: nat)
    requires Agree(c, b) && Agree(POLYNOMIAL, 0xEDB8_8320)
    ensures Agree(ShiftBy(c, k), ShiftedBy(b, k))
    decreases k
  {
    hide Agree, Shift, Shifted, ShiftBy, ShiftedBy, BitsOf;
    ShiftOnce(c, b, k);
    if k > 0 {
      ShiftWord(c, b);
      ShiftByWord(Shift(c), Shifted(b), k - 1);
    }
  }

  // ---- Numbers ----

  /** Number and word agree in their `k` low bits. */
  predicate Same(n: nat, b: bv32, k: nat)
    decreases k
  {
    k == 0 || ((n % 2 == 1) == (b & 1 != 0) && Same(n / 2, b >> 1, k - 1))
  }

  lemma {:induction false} SameBits(n: nat, b: bv32, k: nat, i: nat)
    requires Same(n, b, k) && i < k
    ensures BitsOf(n, k)[i] == Bit(b, i)
    decreases k
  {
    if i == 0 {
      LowestBit(b);
    } else {
      SameBits(n / 2, b >> 1, k - 1, i - 1);
      HalfBit(b, i - 1);
      assert BitsOf(n, k)[i] == BitsOf(n / 2, k - 1)[i - 1];
    }
  }

  lemma SameAgree(n: nat, b: bv32)
    requires Same(n, b, 32)
    ensures Agree(BitsOf(n, 32), b)
  {
    forall i | 0 <= i < 32
      ensures BitsOf(n, 32)[i] == Bit(b, i)
    {
      SameBits(n, b, 32, i);
    }
  }

  function HalfBy(n: nat, j: nat): nat
    decreases j
  {
    if j == 0 then n else HalfBy(n / 2, j - 1)
  }

  function Down(b: bv32, j: nat): bv32
    decreases j
  {
    if j == 0 then b else Down(b >> 1, j - 1)
  }

  lemma {:induction false} SameInParts(n: nat, b: bv32, j: nat, k: nat)
    requires Same(n, b, j) && Same(HalfBy(n, j), Down(b, j), k)
    ensures Same(n, b, j + k)
    decreases j
  {
    if j > 0 {
      SameInParts(n / 2, b >> 1, j - 1, k);
    }
  }

  lemma HalfByEight(n: nat)
    ensures HalfBy(n, 8) == n / 256
  {
    assert HalfBy(n, 8) == HalfBy(n / 2 / 2 / 2 / 2, 4);
  }

  lemma DownEight(b: bv32)
    ensures Down(b, 8) == b >> 8
  {
    assert Down(b, 8) == Down(b >> 1 >> 1 >> 1 >> 1, 4);
  }

  lemma NextByte(n: nat, b: bv32, m: nat, c: bv32, k: nat)
    requires Same(n, b, 8) && m == n / 256 && c == b >> 8 && Same(m, c, k)
    ensures Same(n, b, 8 + k)
  {
    hide Same;
    HalfByEight(n);
    DownEight(b);
    SameInParts(n, b, 8, k);
  }

  /** A number and a word that agree byte by byte stand for one register. */
  lemma WordOf(n: nat, b: bv32, n1: nat, b1: bv32, n2: nat, b2: bv32, n3: nat, b3: bv32)
    requires Same(n, b, 8) && n1 == n / 256 && b1 == b >> 8
    requires Same(n1, b1, 8) && n2 == n1 / 256 && b2 == b1 >> 8
    requires Same(n2, b2, 8) && n3 == n2 / 256 && b3 == b2 >> 8 && Same(n3, b3, 8)
    ensures Agree(BitsOf(n, 32), b)
  {
    hide Same, BitsOf, Agree;
    NextByte(n2, b2, n3, b3, 8);
    NextByte(n1, b1, n2, b2, 16);
    NextByte(n, b, n1, b1, 24);
    SameAgree(n, b);
  }

  lemma SameRegister(c: Register, d: Register, b: bv32)
    requires Agree(c, b) && Agree(d, b)
    ensures c == d
  {
    hide Bit;
  }

  lemma PolynomialAgrees()
    ensures Agree(POLYNOMIAL, 0xEDB8_8320)
  {
    WordOf(0xEDB8_8320, 0xEDB8_8320, 0xED_B883, 0xED_B883, 0xEDB8, 0xEDB8, 0xED, 0xED);
    hide BitsOf;
  }

  lemma ResidueNumber()
    ensures Agree(BitsOf(0xDEBB_20E3, 32), 0xDEBB_20E3)
  {
    WordOf(0xDEBB_20E3, 0xDEBB_20E3, 0xDE_BB20, 0xDE_BB20, 0xDEBB, 0xDEBB, 0xDE, 0xDE);
    hide BitsOf;
  }

  lemma OnesAgree()
    ensures Agree(ONES, 0xFFFF_FFFF)
  {
    WordOf(0xFFFF_FFFF, 0xFFFF_FFFF, 0xFF_FFFF, 0xFF_FFFF, 0xFFFF, 0xFFFF, 0xFF, 0xFF);
    hide BitsOf;
  }

  lemma CheckNumber()
    ensures Agree(BitsOf(0x340B_C6D9, 32), 0x340B_C6D9)
  {
    WordOf(0x340B_C6D9, 0x340B_C6D9, 0x34_0BC6, 0x34_0BC6, 0x340B, 0x340B, 0x34, 0x34);
    hide BitsOf;
  }

  // ---- The residue ----

  lemma OneBit(n: nat, k: nat)
    requires k > 0
    ensures BitsOf(n, k) == [n % 2 == 1] + BitsOf(n / 2, k - 1)
  {
  }

  lemma {:induction false} AllOnes(n: nat, k: nat, i: nat)
    requires n + 1 == Pow2(k) && i < k
    ensures BitsOf(n, k)[i]
  {
    OneBit(n, k);
    hide BitsOf;
    if i > 0 {
      AllOnes(n / 2, k - 1, i - 1);
    }
  }

  lemma OnesAreNotZeros()
    ensures Not(Zeros(32)) == ONES
  {
    hide BitsOf, Zeros, Not;
    Pow2Of32();
    forall i | 0 <= i < 32
      ensures ONES[i]
    {
      AllOnes(0xFFFF_FFFF, 32, i);
    }
  }

  lemma ShiftedWordBytes()
    ensures ShiftedBy(0xFFFF_FFFF, 8) == 0x2DFD_1072
    ensures ShiftedBy(0x2DFD_1072, 8) == 0xBE26_ED00
    ensures ShiftedBy(0xBE26_ED00, 8) == 0x00BE_26ED
    ensures ShiftedBy(0x00BE_26ED, 8) == 0xDEBB_20E3
  {
  }

  lemma {:induction false} ShiftedInParts(b: bv32, j: nat, k: nat)
    ensures ShiftedBy(b, j + k) == ShiftedBy(ShiftedBy(b, j), k)
    decreases j
  {
    hide Shifted;
    if j > 0 {
      ShiftedInParts(Shifted(b), j - 1, k);
    }
  }

  /** The residue of CRC-32: every message followed by its checksum leaves the register at 0xDEBB20E3. */
  lemma ResidueIs()
    ensures Residue() == BitsOf(0xDEBB_20E3, 32)
  {
    hide Agree, ShiftedBy, BitsOf, ShiftBy, Not, Zeros;
    PolynomialAgrees();
    OnesAgree();
    OnesAreNotZeros();
    ShiftByWord(ONES, 0xFFFF_FFFF, 32);
    ShiftedInParts(0xFFFF_FFFF, 8, 24);
    ShiftedInParts(0x2DFD_1072, 8, 16);
    ShiftedInParts(0xBE26_ED00, 8, 8);
    ShiftedWordBytes();
    ResidueNumber();
    SameRegister(Residue(), BitsOf(0xDEBB_20E3, 32), 0xDEBB_20E3);
  }

  lemma EveryMessageLeavesTheResidue(data: seq<Byte>)
    ensures Number(Feed(ONES, MessageBits(data + PutU32(Hash(data))))) == 0xDEBB_20E3
  {
    CheckedMessage(data);
    ResidueIs();
    Pow2Of32();
    ValueOfBits(0xDEBB_20E3, 32);
  }

  // ---- The check value ----

  /** A byte, where feeding it adds it to the register. */
  predicate ByteWord(b: Byte, w: bv32) {
    Same(b, w, 8) && Down(w, 8) == 0
  }

  lemma {:induction false} DownBit(b: bv32, j: nat, i: nat)
    ensures Bit(Down(b, j), i) == Bit(b, j + i)
    decreases j
  {
    hide Bit;
    if j > 0 {
      DownBit(b >> 1, j - 1, i);
      HalfBit(b, j - 1 + i);
    }
  }

  lemma NoBits32(i: nat)
    ensures !Bit(0, i)
  {
  }

  lemma ByteAgrees(b: Byte, w: bv32)
    requires ByteWord(b, w)
    ensures Agree(ByteBits(b) + Zeros(24), w)
  {
    forall i | 0 <= i < 32
      ensures (ByteBits(b) + Zeros(24))[i] == Bit(w, i)
    {
      hide Bit, Same;
      if i < 8 {
        SameBits(b, w, 8, i);
      } else {
        DownBit(w, 8, i - 8);
        NoBits32(i - 8);
      }
    }
  }

  lemma XorAgrees(c: Register, d: Register, b: bv32, w: bv32)
    requires Agree(c, b) && Agree(d, w)
    ensures Agree(Xor(c, d), b ^ w)
  {
    hide Bit, Xor;
    forall i | 0 <= i < 32
      ensures Xor(c, d)[i] == Bit(b ^ w, i)
    {
      XorBit(b, w, i);
    }
  }

  /** One more byte of a message, on the word. */
  lemma FeedByte(c: Register, b: bv32, data: seq<Byte>, w: bv32)
    requires Agree(c, b) && data != [] && ByteWord(data[0], w)
    ensures Feed(c, MessageBits(data)) == Feed(Feed(c, ByteBits(data[0])), MessageBits(data[1..]))
    ensures Agree(Feed(c, ByteBits(data[0])), ShiftedBy(b ^ w, 8))
  {
    hide Agree, ShiftedBy, BitsOf, ShiftBy, Feed, ByteWord;
    PolynomialAgrees();
    FeedAppend(c, ByteBits(data[0]), MessageBits(data[1..]));
    FeedIsShiftBy(c, ByteBits(data[0]));
    ByteAgrees(data[0], w);
    XorAgrees(c, ByteBits(data[0]) + Zeros(24), b, w);
    ShiftByWord(Xor(c, ByteBits(data[0]) + Zeros(24)), b ^ w, 8);
  }

  /** "123456789", the message that check values are published for. */
  const DIGITS: seq<Byte> := [0x31, 0x32, 0x33, 0x34, 0x35, 0x36, 0x37, 0x38, 0x39]

  lemma FirstDigits()
    ensures ShiftedBy(0xFFFF_FFFF ^ 0x31, 8) == 0x7C23_1048
    ensures ShiftedBy(0x7C23_1048 ^ 0x32, 8) == 0xB0AC_BB32
    ensures ShiftedBy(0xB0AC_BB32 ^ 0x33, 8) == 0x77B7_9C2D
    ensures ShiftedBy(0x77B7_9C2D ^ 0x34, 8) == 0x641C_1F5C
    ensures ShiftedBy(0x641C_1F5C ^ 0x35, 8) == 0x340A_C5E3
  {
  }

  lemma LastDigits()
    ensures ShiftedBy(0x340A_C5E3 ^ 0x36, 8) == 0xF68D_2C9E
    ensures ShiftedBy(0xF68D_2C9E ^ 0x37, 8) == 0xAFFC_9660
    ensures ShiftedBy(0xAFFC_9660 ^ 0x38, 8) == 0x651F_2550
    ensures ShiftedBy(0x651F_2550 ^ 0x39, 8) == 0x340B_C6D9
  {
  }

  lemma DigitWords()
    ensures ByteWord(0x31, 0x31) && ByteWord(0x32, 0x32) && ByteWord(0x33, 0x33)
    ensures ByteWord(0x34, 0x34) && ByteWord(0x35, 0x35) && ByteWord(0x36, 0x36)
    ensures ByteWord(0x37, 0x37) && ByteWord(0x38, 0x38) && ByteWord(0x39, 0x39)
  {
  }

  /** The word after some bytes of a message, if a byte's word is the byte. */
  function FedWords(b: bv32, words: seq<bv32>): bv32
    decreases |words|
  {
    if words == [] then b else FedWords(ShiftedBy(b ^ words[0], 8), words[1..])
  }

  lemma {:induction false} FeedWords(c: Register, b: bv32, data: seq<Byte>, words: seq<bv32>)
    requires Agree(c, b) && |words| == |data| && forall i :: 0 <= i < |data| ==> ByteWord(data[i], words[i])
    ensures Agree(Feed(c, MessageBits(data)), FedWords(b, words))
    decreases |data|
  {
    hide Agree, ShiftedBy, ByteWord, Feed;
    if data == [] {
      NothingFed(c);
    } else {
      FeedByte(c, b, data, words[0]);
      FeedWords(Feed(c, ByteBits(data[0])), ShiftedBy(b ^ words[0], 8), data[1..], words[1..]);
    }
  }

  lemma NothingFed(c: Register)
    ensures Feed(c, MessageBits([])) == c
  {
  }

  function DigitWordList(): seq<bv32> {
    [0x31, 0x32, 0x33, 0x34, 0x35, 0x36, 0x37, 0x38, 0x39]
  }

  lemma FedDigits()
    ensures FedWords(0xFFFF_FFFF, DigitWordList()) == 0x340B_C6D9
  {
    hide ShiftedBy;
    var w := DigitWordList();
    FirstDigits();
    LastDigits();
    assert FedWords(0x340B_C6D9, w[9..]) == 0x340B_C6D9;
    assert w[8..][1..] == w[9..] && FedWords(0x651F_2550, w[8..]) == 0x340B_C6D9;
    assert w[7..][1..] == w[8..] && FedWords(0xAFFC_9660, w[7..]) == 0x340B_C6D9;
    assert w[6..][1..] == w[7..] && FedWords(0xF68D_2C9E, w[6..]) == 0x340B_C6D9;
    assert w[5..][1..] == w[6..] && FedWords(0x340A_C5E3, w[5..]) == 0x340B_C6D9;
    assert w[4..][1..] == w[5..] && FedWords(0x641C_1F5C, w[4..]) == 0x340B_C6D9;
    assert w[3..][1..] == w[4..] && FedWords(0x77B7_9C2D, w[3..]) == 0x340B_C6D9;
    assert w[2..][1..] == w[3..] && FedWords(0xB0AC_BB32, w[2..]) == 0x340B_C6D9;
    assert w[1..][1..] == w[2..] && FedWords(0x7C23_1048, w[1..]) == 0x340B_C6D9;
    assert w[0..][1..] == w[1..] && FedWords(0xFFFF_FFFF, w[0..]) == 0x340B_C6D9;
    assert w[0..] == w;
  }

  /** The check value of CRC-32. */
  lemma CheckValue()
    ensures Hash(DIGITS) == 0xCBF4_3926
  {
    hide Agree, Feed, FedWords, BitsOf, MessageBits, ByteWord;
    OnesAgree();
    DigitWords();
    FeedWords(ONES, 0xFFFF_FFFF, DIGITS, DigitWordList());
    FedDigits();
    CheckNumber();
    SameRegister(Feed(ONES, MessageBits(DIGITS)), BitsOf(0x340B_C6D9, 32), 0x340B_C6D9);
    InvertedNumber(0x340B_C6D9);
  }

  /** Inverting the bits of a number counts down from all ones. */
  lemma {:induction false} NotValue(a: Bits)
    ensures Value(Not(a)) + Value(a) + 1 == Pow2(|a|)
  {
    if a != [] {
      NotValue(a[1..]);
      assert Not(a)[1..] == Not(a[1..]);
    }
  }

  lemma InvertedNumber(n: U32)
    ensures Number(Not(BitsOf(n, 32))) == 0xFFFF_FFFF - n
  {
    hide BitsOf, Not, Value;
    Pow2Of32();
    NotValue(BitsOf(n, 32));
    ValueOfBits(n, 32);
  }
}
