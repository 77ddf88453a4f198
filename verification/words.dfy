/** Fixed-width machine words as ranges of `int`, their little-endian bytes, and
    the bits of a byte. */
module Words {
  type byte = b: int | 0 <= b < 0x100
  type u32 = w: int | 0 <= w < 0x1_0000_0000
  type u64 = w: int | 0 <= w < 0x1_0000_0000_0000_0000
  type bit = v: int | 0 <= v < 2

  function Lo32(x: u64): u32 { x % 0x1_0000_0000 }

  function Hi32(x: u64): u32 { x / 0x1_0000_0000 }

  function Join(lo: u32, hi: u32): u64 { lo + hi * 0x1_0000_0000 }

  function Pow256(n: nat): (p: nat)
    ensures p > 0
  {
    if n == 0 then 1 else 0x100 * Pow256(n - 1)
  }

  /** The `n` low bytes of `w`, least significant first. */
  function ToBytes(w: nat, n: nat): (s: seq<byte>)
    ensures |s| == n
  {
    if n == 0 then [] else [w % 0x100] + ToBytes(w / 0x100, n - 1)
  }

  function FromBytes(s: seq<byte>): (w: nat)
    ensures w < Pow256(|s|)
  {
    if s == [] then 0 else s[0] as int + 0x100 * FromBytes(s[1..])
  }

  lemma {:induction false} FromToBytes(w: nat, n: nat)
    requires w < Pow256(n)
    ensures FromBytes(ToBytes(w, n)) == w
  {
    if n > 0 {
      FromToBytes(w / 0x100, n - 1);
      assert ToBytes(w, n)[1..] == ToBytes(w / 0x100, n - 1);
    }
  }

  function Le32(w: u32): (s: seq<byte>)
    ensures |s| == 4
  {
    ToBytes(w, 4)
  }

  /** A 64-bit value as the two words the driver splits it into, low word first. */
  function Le64(x: u64): (s: seq<byte>)
    ensures |s| == 8
  {
    Le32(Lo32(x)) + Le32(Hi32(x))
  }

  /** The word whose little-endian bytes start at `at`. */
  function Word(s: seq<byte>, at: nat): u32
    requires at + 4 <= |s|
  {
    assert Pow256(4) == 0x1_0000_0000;
    FromBytes(s[at..at + 4])
  }

  function Quad(s: seq<byte>, at: nat): u64
    requires at + 8 <= |s|
  {
    Join(Word(s, at), Word(s, at + 4))
  }

  lemma WordOfLe32(s: seq<byte>, at: nat, w: u32)
    requires at + 4 <= |s| && s[at..at + 4] == Le32(w)
    ensures Word(s, at) == w
  {
    assert Pow256(4) == 0x1_0000_0000;
    FromToBytes(w, 4);
  }

  lemma QuadOfLe64(s: seq<byte>, at: nat, x: u64)
    requires at + 8 <= |s| && s[at..at + 8] == Le64(x)
    ensures Quad(s, at) == x
  {
    assert s[at..at + 4] == Le64(x)[..4] == Le32(Lo32(x));
    assert s[at + 4..at + 8] == Le64(x)[4..] == Le32(Hi32(x));
    WordOfLe32(s, at, Lo32(x));
    WordOfLe32(s, at + 4, Hi32(x));
  }

  lemma TwoBytes(w: nat, n: nat)
    ensures ToBytes(w, n + 2) == [w % 0x100, w / 0x100 % 0x100] + ToBytes(w / 0x1_0000, n)
  {
    assert ToBytes(w, n + 2) == [w % 0x100] + ToBytes(w / 0x100, n + 1);
    assert w / 0x100 / 0x100 == w / 0x1_0000;
  }

  lemma FourBytes(w: nat, n: nat)
    ensures ToBytes(w, n + 4)
         == [w % 0x100, w / 0x100 % 0x100, w / 0x1_0000 % 0x100, w / 0x100_0000 % 0x100] + ToBytes(w / 0x1_0000_0000, n)
  {
    hide ToBytes;
    TwoBytes(w, n + 2);
    TwoBytes(w / 0x1_0000, n);
    assert w / 0x1_0000 / 0x100 == w / 0x100_0000 && w / 0x1_0000 / 0x1_0000 == w / 0x1_0000_0000;
  }

  lemma LowWord(x: nat)
    ensures var lo := x % 0x1_0000_0000;
      && lo % 0x100 == x % 0x100 && lo / 0x100 % 0x100 == x / 0x100 % 0x100
      && lo / 0x1_0000 % 0x100 == x / 0x1_0000 % 0x100 && lo / 0x100_0000 % 0x100 == x / 0x100_0000 % 0x100
  {
    var q, lo := x / 0x1_0000_0000, x % 0x1_0000_0000;
    assert x / 0x100 == lo / 0x100 + 0x100_0000 * q;
    assert x / 0x1_0000 == lo / 0x1_0000 + 0x1_0000 * q;
    assert x / 0x100_0000 == lo / 0x100_0000 + 0x100 * q;
  }

  /** Low word first is the little-endian order of all eight bytes. */
  lemma Le64Bytes(x: u64)
    ensures Le64(x) == ToBytes(x, 8)
  {
    var lo := x % 0x1_0000_0000;
    assert ToBytes(lo / 0x1_0000_0000, 0) == [];
    hide ToBytes;
    FourBytes(x, 4);
    FourBytes(lo, 0);
    LowWord(x);
  }

  function Pow2(n: nat): nat { if n == 0 then 1 else 2 * Pow2(n - 1) }

  /** The `n` low bits of `b`, least significant first. */
  function ToBits(b: nat, n: nat): (s: seq<bit>)
    ensures |s| == n
  {
    if n == 0 then [] else [b % 2] + ToBits(b / 2, n - 1)
  }

  function FromBits(s: seq<bit>): (b: nat)
    ensures b < Pow2(|s|)
  {
    if s == [] then 0 else s[0] as int + 2 * FromBits(s[1..])
  }

  lemma {:induction false} ToFromBits(s: seq<bit>)
    ensures ToBits(FromBits(s), |s|) == s
  {
    if s != [] {
      ToFromBits(s[1..]);
      assert FromBits(s) / 2 == FromBits(s[1..]);
    }
  }

  lemma LowBit(s: seq<bit>, k: nat)
    requires k < |s|
    ensures FromBits(s[k..]) == s[k] as int + 2 * FromBits(s[k + 1..])
  {
    assert s[k..][1..] == s[k + 1..];
  }

  /** Eight bits by their weights. */
  lemma SumOfBits(s: seq<bit>)
    requires |s| == 8
    ensures FromBits8(s) == s[0] as int + 2 * (s[1] as int) + 4 * (s[2] as int) + 8 * (s[3] as int)
                          + 16 * (s[4] as int) + 32 * FromBits(s[5..])
  {
    LowBit(s, 4);
    LowBit(s, 3);
    LowBit(s, 2);
    LowBit(s, 1);
    LowBit(s, 0);
    assert s[0..] == s;
  }

  lemma TwoToBits(b: nat, n: nat)
    requires n > 1
    ensures ToBits(b, n) == [b % 2, b / 2 % 2] + ToBits(b / 4, n - 2)
  {
    assert ToBits(b, n) == [b % 2] + ToBits(b / 2, n - 1);
    assert b / 2 / 2 == b / 4;
  }

  lemma {:induction false} FromToBits(b: nat, n: nat)
    requires b < Pow2(n)
    ensures FromBits(ToBits(b, n)) == b
  {
    if n > 0 {
      FromToBits(b / 2, n - 1);
      assert ToBits(b, n)[1..] == ToBits(b / 2, n - 1);
    }
  }

  /** The five low bits of a byte by division, and the rest as a number. */
  lemma BitsValue(b: byte)
    ensures var s := Bits(b);
      && s[0] == b % 2 && s[1] == b / 2 % 2 && s[2] == b / 4 % 2 && s[3] == b / 8 % 2 && s[4] == b / 16 % 2
      && FromBits(s[5..]) == b / 32
  {
    TwoToBits(b, 8);
    TwoToBits(b / 4, 6);
    assert b / 4 / 4 == b / 16 && b / 4 / 2 == b / 8 && b / 16 / 2 == b / 32;
    assert ToBits(b / 16, 4) == [b / 16 % 2] + ToBits(b / 32, 3);
    assert Bits(b)[5..] == ToBits(b / 32, 3);
    assert Pow2(3) == 8;
    FromToBits(b / 32, 3);
  }

  /** The bit fields of a byte, and the byte they make. */
  function Bits(b: byte): (s: seq<bit>)
    ensures |s| == 8
  {
    ToBits(b, 8)
  }

  function FromBits8(s: seq<bit>): byte
    requires |s| == 8
  {
    assert Pow2(8) == 0x100;
    FromBits(s)
  }
}
