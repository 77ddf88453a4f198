/** The 24-byte elements of a descriptor list: hdma.h's two record layouts and
    the setters of hdma.c that fill them in place. */
module Descriptor {
  import opened Words
  import opened Memory

  datatype Element =
    | Data(cb: bit, lie: bit, rie: bit, src: u64, dst: u64, len: u32)
    | Link(cb: bit, tcb: bit, ptr: u64)

  // Bit positions in an element's first byte; a data element leaves TCB unused.
  const CB: nat := 0
  const TCB: nat := 1
  const LLP: nat := 2
  const LIE: nat := 3
  const RIE: nat := 4

  /** What the DMA engine sees in 24 bytes: LLP tells a link from a data element. */
  function Decode(s: seq<byte>): Element
    requires |s| == 24
  {
    var f := Bits(s[0]);
    if f[LLP] == 1 then Link(f[CB], f[TCB], Quad(s, 8))
    else Data(f[CB], f[LIE], f[RIE], Quad(s, 8), Quad(s, 16), Word(s, 4))
  }

  function DecodeAt(m: Mem, at: nat): Element {
    Decode(Read(m, at, 24))
  }

  /** The setter of a data element writes CB, LLP, LIE and RIE and keeps bit 1
      and bits 5 to 7 of the old byte. */
  function DataFlags(old0: byte, lie: bit, rie: bit, cb: bit): byte {
    FromBits8(Bits(old0)[CB := cb][LLP := 0][LIE := lie][RIE := rie])
  }

  /** The setter of a link element writes CB, TCB and LLP and keeps the rest. */
  function LinkFlags(old0: byte, tcb: bit, cb: bit): byte {
    FromBits8(Bits(old0)[CB := cb][TCB := tcb][LLP := 1])
  }

  lemma FiveBits(b: byte)
    ensures b / 8 == b / 8 % 2 + 2 * (b / 16 % 2) + 4 * (b / 32)
  {
    assert b / 16 == b / 8 / 2 && b / 32 == b / 16 / 2;
  }

  /** The first byte of a data element bit by bit: CB is bit 0, LLP bit 2, LIE bit
      3 and RIE bit 4, and the other four keep their old values. */
  lemma DataFlagsValue(old0: byte, lie: bit, rie: bit, cb: bit)
    ensures DataFlags(old0, lie, rie, cb) == cb + 2 * (old0 / 2 % 2) + 8 * lie + 16 * rie + 32 * (old0 / 32)
  {
    BitsValue(old0);
    var b := Bits(old0);
    var f := b[CB := cb][LLP := 0][LIE := lie][RIE := rie];
    assert f[5..] == b[5..];
    hide Bits;
    SumOfBits(f);
  }

  /** Likewise a link's: CB is bit 0, TCB bit 1 and LLP bit 2. */
  lemma LinkFlagsValue(old0: byte, tcb: bit, cb: bit)
    ensures LinkFlags(old0, tcb, cb) == cb + 2 * tcb + 4 + 8 * (old0 / 8)
  {
    BitsValue(old0);
    var b := Bits(old0);
    var f := b[CB := cb][TCB := tcb][LLP := 1];
    assert f[5..] == b[5..];
    hide Bits;
    SumOfBits(f);
    FiveBits(old0);
  }

  /** A data element written over the old contents `g`: three bytes of flags
      keep what they held. */
  function DataImage(g: seq<byte>, src: u64, dst: u64, len: u32, lie: bit, rie: bit, cb: bit): (s: seq<byte>)
    requires |g| == 24
    ensures |s| == 24
  {
    ([DataFlags(g[0], lie, rie, cb)] + g[1..4]) + Le32(len) + Le64(src) + Le64(dst)
  }

  /** A link element written over `g`: bytes 1 to 7 and the last eight keep what
      they held. */
  function LinkImage(g: seq<byte>, ptr: u64, tcb: bit, cb: bit): (s: seq<byte>)
    requires |g| == 24
    ensures |s| == 24
  {
    ([LinkFlags(g[0], tcb, cb)] + g[1..4]) + g[4..8] + Le64(ptr) + g[16..24]
  }

  /** Where a data element's fields lie, byte by byte. */
  lemma DataImageBytes(g: seq<byte>, src: u64, dst: u64, len: u32, lie: bit, rie: bit, cb: bit)
    requires |g| == 24
    ensures var s := DataImage(g, src, dst, len, lie, rie, cb);
      && s[0] == cb + 2 * (g[0] / 2 % 2) + 8 * lie + 16 * rie + 32 * (g[0] / 32)
      && s[1..4] == g[1..4] && s[4..8] == ToBytes(len, 4) && s[8..16] == ToBytes(src, 8) && s[16..24] == ToBytes(dst, 8)
  {
    hide DataFlags, ToBytes;
    DataFlagsValue(g[0], lie, rie, cb);
    Parts([DataFlags(g[0], lie, rie, cb)] + g[1..4], Le32(len), Le64(src), Le64(dst));
    Le64Bytes(src);
    Le64Bytes(dst);
  }

  /** Where a link element's lie. */
  lemma LinkImageBytes(g: seq<byte>, ptr: u64, tcb: bit, cb: bit)
    requires |g| == 24
    ensures var s := LinkImage(g, ptr, tcb, cb);
      && s[0] == cb + 2 * tcb + 4 + 8 * (g[0] / 8)
      && s[1..8] == g[1..8] && s[8..16] == ToBytes(ptr, 8) && s[16..24] == g[16..24]
  {
    hide LinkFlags, ToBytes;
    LinkFlagsValue(g[0], tcb, cb);
    Parts([LinkFlags(g[0], tcb, cb)] + g[1..4], g[4..8], Le64(ptr), g[16..24]);
    Le64Bytes(ptr);
  }

  lemma Parts(a: seq<byte>, b: seq<byte>, c: seq<byte>, d: seq<byte>)
    requires |a| == 4 && |b| == 4 && |c| == 8 && |d| == 8
    ensures var s := a + b + c + d;
      s[0] == a[0] && s[1..4] == a[1..4] && s[1..8] == a[1..4] + b && s[4..8] == b && s[8..16] == c && s[16..24] == d
  {
  }

  /** Whatever the element held before, decoding gives back what was set. */
  lemma DecodeDataImage(g: seq<byte>, src: u64, dst: u64, len: u32, lie: bit, rie: bit, cb: bit)
    requires |g| == 24
    ensures Decode(DataImage(g, src, dst, len, lie, rie, cb)) == Data(cb, lie, rie, src, dst, len)
  {
    var s := DataImage(g, src, dst, len, lie, rie, cb);
    Parts([DataFlags(g[0], lie, rie, cb)] + g[1..4], Le32(len), Le64(src), Le64(dst));
    WordOfLe32(s, 4, len);
    QuadOfLe64(s, 8, src);
    QuadOfLe64(s, 16, dst);
    ToFromBits(Bits(g[0])[CB := cb][LLP := 0][LIE := lie][RIE := rie]);
  }

  lemma DecodeLinkImage(g: seq<byte>, ptr: u64, tcb: bit, cb: bit)
    requires |g| == 24
    ensures Decode(LinkImage(g, ptr, tcb, cb)) == Link(cb, tcb, ptr)
  {
    var s := LinkImage(g, ptr, tcb, cb);
    Parts([LinkFlags(g[0], tcb, cb)] + g[1..4], g[4..8], Le64(ptr), g[16..24]);
    QuadOfLe64(s, 8, ptr);
    ToFromBits(Bits(g[0])[CB := cb][TCB := tcb][LLP := 1]);
  }

  /** `t` with `s` in place of what it held from `at` on. */
  function Splice(t: seq<byte>, at: nat, s: seq<byte>): (r: seq<byte>)
    requires at + |s| <= |t|
    ensures |r| == |t|
  {
    t[..at] + s + t[at + |s|..]
  }

  lemma SpliceInside(t: seq<byte>, at: nat, s: seq<byte>)
    requires |s| == 24 && at + 24 <= |t|
    ensures var r := Splice(t, at, s);
      && r[at] == s[0] && r[at + 1..at + 4] == s[1..4] && r[at + 1..at + 8] == s[1..8] && r[at + 4..at + 8] == s[4..8]
      && r[at + 8..at + 16] == s[8..16] && r[at + 16..at + 24] == s[16..24]
      && r[..at] == t[..at] && r[at + 24..] == t[at + 24..]
  {
  }

  lemma SpliceBefore(t: seq<byte>, at: nat, s: seq<byte>, r: seq<byte>)
    requires |r| <= at && at + |s| <= |t|
    ensures Splice(Splice(t, at, s), at - |r|, r) == Splice(t, at - |r|, r + s)
  {
  }

  lemma SpliceAfter(t: seq<byte>, at: nat, s: seq<byte>, r: seq<byte>)
    requires at + |s| + |r| <= |t|
    ensures Splice(Splice(t, at, s), at + |s|, r) == Splice(t, at, s + r)
  {
  }

  lemma SpliceDown(t: seq<byte>, at: nat, f: seq<byte>, a: seq<byte>, b: seq<byte>, c: seq<byte>)
    requires |f| == |a| == 4 && |b| == |c| == 8 && at + 24 <= |t|
    ensures Splice(Splice(Splice(Splice(t, at, f), at + 16, c), at + 8, b), at + 4, a) == Splice(t, at, f + a + b + c)
  {
    var t' := Splice(t, at, f);
    SpliceBefore(t', at + 16, c, b);
    SpliceBefore(t', at + 8, b + c, a);
    SpliceAfter(t, at, f, a + (b + c));
    assert f + (a + (b + c)) == f + a + b + c;
  }

  lemma SpliceOver(t: seq<byte>, at: nat, f: seq<byte>, b: seq<byte>)
    requires |f| == 4 && |b| == 8 && at + 24 <= |t|
    ensures Splice(Splice(t, at, f), at + 8, b) == Splice(t, at, f + t[at..at + 24][4..8] + b + t[at..at + 24][16..24])
  {
    var g := t[at..at + 24];
    assert t[at..] == g + t[at + 24..];
    assert t[at + 16..] == g[16..24] + t[at + 24..];
    assert Splice(t, at, f)[..at + 8] == t[..at] + f + g[4..8];
    assert Splice(t, at, f)[at + 16..] == t[at + 16..];
  }

  /** Stores the byte that holds the bit fields of the element at `at`. */
  method PutFlags(buf: array<byte>, at: nat, flags: byte)
    requires at + 24 <= buf.Length
    modifies buf
    ensures buf[..] == Splice(old(buf[..]), at, [flags] + old(buf[at..at + 24])[1..4])
  {
    buf[at] := flags;
  }

  method Put32(buf: array<byte>, at: nat, w: u32)
    requires at + 4 <= buf.Length
    modifies buf
    ensures buf[..] == Splice(old(buf[..]), at, Le32(w))
  {
    var b := Le32(w);
    buf[at], buf[at + 1], buf[at + 2], buf[at + 3] := b[0], b[1], b[2], b[3];
  }

  method Put64(buf: array<byte>, at: nat, x: u64)
    requires at + 8 <= buf.Length
    modifies buf
    ensures buf[..] == Splice(old(buf[..]), at, Le64(x))
  {
    Put32(buf, at, Lo32(x));
    Put32(buf, at + 4, Hi32(x));
    SpliceAfter(old(buf[..]), at, Le32(Lo32(x)), Le32(Hi32(x)));
  }

  /** hdma.c's set_data_element on the element at byte offset `at`. */
  method SetDataElement(buf: array<byte>, at: nat, src: u64, dst: u64, len: u32, lie: bit, rie: bit, cb: bit)
    requires at + 24 <= buf.Length
    modifies buf
    ensures buf[..] == Splice(old(buf[..]), at, DataImage(old(buf[at..at + 24]), src, dst, len, lie, rie, cb))
    ensures buf[at] as int == cb + 2 * (old(buf[at]) / 2 % 2) + 8 * lie + 16 * rie + 32 * (old(buf[at]) / 32)
    ensures buf[at + 1..at + 4] == old(buf[at + 1..at + 4]) && buf[at + 4..at + 8] == ToBytes(len, 4)
    ensures buf[at + 8..at + 16] == ToBytes(src, 8) && buf[at + 16..at + 24] == ToBytes(dst, 8)
    ensures buf[..at] == old(buf[..at]) && buf[at + 24..] == old(buf[at + 24..])
  {
    PutFlags(buf, at, DataFlags(buf[at], lie, rie, cb));
    Put64(buf, at + 16, dst);
    Put64(buf, at + 8, src);
    Put32(buf, at + 4, len);
    ghost var g := old(buf[at..at + 24]);
    SpliceDown(old(buf[..]), at, [DataFlags(g[0], lie, rie, cb)] + g[1..4], Le32(len), Le64(src), Le64(dst));
    DataStored(old(buf[..]), buf[..], at, src, dst, len, lie, rie, cb);
  }

  lemma SliceOfSlice(t: seq<byte>, a: nat, b: nat, i: nat, j: nat)
    requires a <= b <= |t| && i <= j <= b - a
    ensures t[a..b][i..j] == t[a + i..a + j]
  {
    var g := t[a..b];
    forall k | i <= k < j ensures g[k] == t[a + k] {
    }
    assert |g[i..j]| == |t[a + i..a + j]|;
    forall k | 0 <= k < j - i ensures g[i..j][k] == t[a + i..a + j][k] {
      assert g[i..j][k] == g[i + k];
    }
  }

  lemma DataStored(t: seq<byte>, r: seq<byte>, at: nat, src: u64, dst: u64, len: u32, lie: bit, rie: bit, cb: bit)
    requires at + 24 <= |t| && r == Splice(t, at, DataImage(t[at..at + 24], src, dst, len, lie, rie, cb))
    ensures r[at] == cb + 2 * (t[at] / 2 % 2) + 8 * lie + 16 * rie + 32 * (t[at] / 32)
    ensures r[at + 1..at + 4] == t[at + 1..at + 4] && r[at + 4..at + 8] == ToBytes(len, 4)
    ensures r[at + 8..at + 16] == ToBytes(src, 8) && r[at + 16..at + 24] == ToBytes(dst, 8)
    ensures r[..at] == t[..at] && r[at + 24..] == t[at + 24..]
  {
    hide Splice, DataImage;
    DataImageBytes(t[at..at + 24], src, dst, len, lie, rie, cb);
    SliceOfSlice(t, at, at + 24, 1, 4);
    SpliceInside(t, at, DataImage(t[at..at + 24], src, dst, len, lie, rie, cb));
  }

  lemma LinkStored(t: seq<byte>, r: seq<byte>, at: nat, ptr: u64, tcb: bit, cb: bit)
    requires at + 24 <= |t| && r == Splice(t, at, LinkImage(t[at..at + 24], ptr, tcb, cb))
    ensures r[at] == cb + 2 * tcb + 4 + 8 * (t[at] / 8)
    ensures r[at + 1..at + 8] == t[at + 1..at + 8] && r[at + 8..at + 16] == ToBytes(ptr, 8)
    ensures r[..at] == t[..at] && r[at + 16..] == t[at + 16..]
  {
    hide Splice, LinkImage;
    LinkImageBytes(t[at..at + 24], ptr, tcb, cb);
    SliceOfSlice(t, at, at + 24, 1, 8);
    SliceOfSlice(t, at, at + 24, 16, 24);
    SpliceInside(t, at, LinkImage(t[at..at + 24], ptr, tcb, cb));
    assert r[at + 16..] == r[at + 16..at + 24] + r[at + 24..];
    assert t[at + 16..] == t[at + 16..at + 24] + t[at + 24..];
  }

  /** hdma.c's set_link_element on the element at byte offset `at`. */
  method SetLinkElement(buf: array<byte>, at: nat, ptr: u64, tcb: bit, cb: bit)
    requires at + 24 <= buf.Length
    modifies buf
    ensures buf[..] == Splice(old(buf[..]), at, LinkImage(old(buf[at..at + 24]), ptr, tcb, cb))
    ensures buf[at] as int == cb + 2 * tcb + 4 + 8 * (old(buf[at]) / 8)
    ensures buf[at + 1..at + 8] == old(buf[at + 1..at + 8]) && buf[at + 8..at + 16] == ToBytes(ptr, 8)
    ensures buf[..at] == old(buf[..at]) && buf[at + 16..] == old(buf[at + 16..])
  {
    PutFlags(buf, at, LinkFlags(buf[at], tcb, cb));
    Put64(buf, at + 8, ptr);
    ghost var was := old(buf[..]);
    ghost var g := was[at..at + 24];
    SpliceOver(was, at, [LinkFlags(g[0], tcb, cb)] + g[1..4], Le64(ptr));
    LinkStored(was, buf[..], at, ptr, tcb, cb);
  }
}
