/** Bytes, little-endian fixed-width fields and the small result types shared by the codecs. */
module Bytes {
  type Byte = b: int | 0 <= b < 256

  const U16_SIZE := 0x1_0000
  const U32_SIZE := 0x1_0000_0000
  const U64_SIZE := 0x1_0000_0000_0000_0000

  type U16 = n: int | 0 <= n < U16_SIZE
  type U32 = n: int | 0 <= n < U32_SIZE
  type U64 = n: int | 0 <= n < U64_SIZE

  datatype Option<+T> = None | Some(value: T)

  function PutU16(n: U16): (s: seq<Byte>)
    ensures |s| == 2
  {
    [n % 256, n / 256]
  }

  function PutU32(n: U32): (s: seq<Byte>)
    ensures |s| == 4
  {
    PutU16(n % U16_SIZE) + PutU16(n / U16_SIZE)
  }

  function PutU64(n: U64): (s: seq<Byte>)
    ensures |s| == 8
  {
    PutU32(n % U32_SIZE) + PutU32(n / U32_SIZE)
  }

  /** The field of width 2 that starts at offset `i`. */
  function U16At(s: seq<Byte>, i: nat): U16
    requires i + 2 <= |s|
  {
    (s[i] as int) + 256 * (s[i + 1] as int)
  }

  function U32At(s: seq<Byte>, i: nat): U32
    requires i + 4 <= |s|
  {
    (U16At(s, i) as int) + 0x1_0000 * (U16At(s, i + 2) as int)
  }

  function U64At(s: seq<Byte>, i: nat): U64
    requires i + 8 <= |s|
  {
    (U32At(s, i) as int) + 0x1_0000_0000 * (U32At(s, i + 4) as int)
  }

  /** A field reads back as `n` exactly where the bytes of `n` stand. */
  lemma U16Field(s: seq<Byte>, i: nat, n: U16)
    requires i + 2 <= |s|
    ensures U16At(s, i) == n <==> s[i..i + 2] == PutU16(n)
  {
    var t := s[i..i + 2];
    assert t == [t[0], t[1]] && t[0] == s[i] && t[1] == s[i + 1];
  }

  lemma SameHalves<T>(a: seq<T>, b: seq<T>, k: nat)
    requires k <= |a| && k <= |b|
    ensures a == b <==> a[..k] == b[..k] && a[k..] == b[k..]
  {
    assert a == a[..k] + a[k..] && b == b[..k] + b[k..];
  }

  lemma U32Field(s: seq<Byte>, i: nat, n: U32)
    requires i + 4 <= |s|
    ensures U32At(s, i) == n <==> s[i..i + 4] == PutU32(n)
  {
    U16Field(s, i, n % U16_SIZE);
    U16Field(s, i + 2, n / U16_SIZE);
    SameHalves(s[i..i + 4], PutU32(n), 2);
    assert s[i..i + 4][..2] == s[i..i + 2] && s[i..i + 4][2..] == s[i + 2..i + 4];
    assert PutU32(n)[..2] == PutU16(n % U16_SIZE) && PutU32(n)[2..] == PutU16(n / U16_SIZE);
  }

  lemma U64Field(s: seq<Byte>, i: nat, n: U64)
    requires i + 8 <= |s|
    ensures U64At(s, i) == n <==> s[i..i + 8] == PutU64(n)
  {
    U32Field(s, i, n % U32_SIZE);
    U32Field(s, i + 4, n / U32_SIZE);
    SameHalves(s[i..i + 8], PutU64(n), 4);
    assert s[i..i + 8][..4] == s[i..i + 4] && s[i..i + 8][4..] == s[i + 4..i + 8];
    assert PutU64(n)[..4] == PutU32(n % U32_SIZE) && PutU64(n)[4..] == PutU32(n / U32_SIZE);
  }

  /** Concatenation of a sequence of pieces. */
  function Flatten<T>(pieces: seq<seq<T>>): seq<T> {
    if pieces == [] then [] else pieces[0] + Flatten(pieces[1..])
  }

  lemma {:induction false} FlattenAppend<T>(a: seq<seq<T>>, b: seq<seq<T>>)
    ensures Flatten(a + b) == Flatten(a) + Flatten(b)
  {
    if a == [] {
      assert a + b == b;
    } else {
      var c := a + b;
      assert c[1..] == a[1..] + b;
      FlattenAppend(a[1..], b);
    }
  }

  lemma FlattenOne<T>(a: seq<T>)
    ensures Flatten([a]) == a
  {
    assert Flatten([a][1..]) == [];
  }
}
