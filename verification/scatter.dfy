/** Splitting a user buffer into one scatter entry per page: test_dev.c's
    get_pages_nr and the table loop of dpu_setup_sg. */
module Scatter {
  import opened Common
  import opened Words

  /** `page` is a page number as the device addresses it. */
  datatype Sg = Sg(page: nat, offset: nat, len: nat)

  /** get_pages_nr, with the wrap-around of its 64-bit arithmetic. */
  function PagesNr(buf: u64, len: u64): u64 {
    var top: u64 := (buf as int + len + 4095) % 0x1_0000_0000_0000_0000;
    var diff: u64 := (top as int - (buf - buf % 4096)) % 0x1_0000_0000_0000_0000;
    diff / 4096
  }

  /** Bytes one turn of the loop takes: `min_t(unsigned int, size, count)` sees
      only the low 32 bits of the remaining count. */
  function Taking(addr: u64, count: u64): nat {
    Min(4096 - addr % 4096, count % 0x1_0000_0000)
  }

  /** host_addr and count after `k` turns of the loop. */
  function Cursor(addr: u64, count: u64, k: nat): (u64, u64) {
    if k == 0 then (addr, count)
    else
      var (a, c) := Cursor(addr, count, k - 1);
      ((a as int + Taking(a, c)) % 0x1_0000_0000_0000_0000, c - Taking(a, c))
  }

  function SgAt(addr: u64, count: u64, page: nat, k: nat): Sg {
    var (a, c) := Cursor(addr, count, k);
    Sg(page, a % 4096, Taking(a, c))
  }

  /** The table the loop leaves behind for the pinned `pages`. */
  function Table(addr: u64, count: u64, pages: seq<nat>): (t: seq<Sg>)
    ensures |t| == |pages|
  {
    seq(|pages|, k requires 0 <= k < |pages| => SgAt(addr, count, pages[k], k))
  }

  method FillTable(hostAddr: u64, size: u64, pages: seq<nat>) returns (sgl: seq<Sg>)
    ensures sgl == Table(hostAddr, size, pages)
  {
    var host, count := hostAddr, size;
    sgl := [];
    for i := 0 to |pages|
      invariant (host, count) == Cursor(hostAddr, size, i)
      invariant sgl == Table(hostAddr, size, pages)[..i]
    {
      var offset := host % 4096;
      var nbytes := Min(4096 - offset, count % 0x1_0000_0000);
      sgl := sgl + [Sg(pages[i], offset, nbytes)];
      host := (host as int + nbytes) % 0x1_0000_0000_0000_0000;
      count := count - nbytes;
    }
  }

  /** Bytes of a `len`-byte buffer that lie before its page `k`, where the
      buffer starts at offset `off` of its page 0. An independent description
      of the split: page boundaries cut the buffer. */
  function Before(off: nat, len: nat, k: nat): nat
    requires off < 4096
  {
    if k == 0 then 0 else Min(len, 4096 * k - off)
  }

  /** The loop's cursor in closed form. All 64-bit counts are covered, so the
      low 32 bits of the length stand where the length should. */
  lemma {:induction false} CursorClosed(addr: u64, len: u64, k: nat)
    ensures var t := Before(addr % 4096, len % 0x1_0000_0000, k);
      Cursor(addr, len, k).1 == len - t && Cursor(addr, len, k).0 % 4096 == (addr % 4096 + t) % 4096
  {
    if k > 0 {
      hide Before, Taking;
      CursorClosed(addr, len, k - 1);
      var (a, c) := Cursor(addr, len, k - 1);
      var t := Before(addr % 4096, len % 0x1_0000_0000, k - 1);
      NextCut(addr % 4096, len % 0x1_0000_0000, k - 1);
      OneTurn(a, c, addr % 4096, len, t, Before(addr % 4096, len % 0x1_0000_0000, k));
    }
  }

  /** One turn of the loop, `t` bytes into a buffer that starts `off` into a page. */
  lemma OneTurn(a: u64, c: u64, off: nat, len: u64, t: nat, t': nat)
    requires off < 4096 && t <= len % 0x1_0000_0000 && c == len - t && a % 4096 == (off + t) % 4096
    requires t' == t + Min(4096 - (off + t) % 4096, len % 0x1_0000_0000 - t)
    ensures c - Taking(a, c) == len - t' && (a as int + Taking(a, c)) % 0x1_0000_0000_0000_0000 % 4096 == (off + t') % 4096
  {
    LowPart(len, t);
    PageOffset(a, off + t, Taking(a, c));
  }

  lemma NextCut(off: nat, r: nat, k: nat)
    requires off < 4096
    ensures var t := Before(off, r, k); Before(off, r, k + 1) == t + Min(4096 - (off + t) % 4096, r - t)
  {
    if k > 0 && 4096 * k - off <= r {
      assert (off + (4096 * k - off)) % 4096 == 0;
    }
  }

  lemma PageOffset(a: nat, b: nat, n: nat)
    requires a % 4096 == b % 4096
    ensures (a + n) % 0x1_0000_0000_0000_0000 % 4096 == (b + n) % 4096
  {
    var q := (a + n) / 0x1_0000_0000_0000_0000;
    assert (a + n) % 0x1_0000_0000_0000_0000 == a + n - 4096 * (0x10_0000_0000_0000 * q);
    SameResidue(a + n - 4096 * (0x10_0000_0000_0000 * q), b + n, a / 4096 - b / 4096 - 0x10_0000_0000_0000 * q);
  }

  lemma SameResidue(x: nat, y: nat, q: int)
    requires x == y + 4096 * q
    ensures x % 4096 == y % 4096
  {
  }

  lemma LowPart(len: u64, t: nat)
    requires t <= len % 0x1_0000_0000
    ensures (len - t) % 0x1_0000_0000 == len % 0x1_0000_0000 - t
  {
  }

  /** The pages a buffer touches. */
  function Touched(addr: nat, len: nat): nat { (addr % 4096 + len + 4095) / 4096 }

  lemma PagesNrIsCeiling(buf: u64, len: u64)
    requires len < 0x1_0000_0000_0000_0000 - 8190
    ensures PagesNr(buf, len) == Touched(buf, len)
  {
    var sum := buf as int + len + 4095;
    if sum < 0x1_0000_0000_0000_0000 {
    } else {
    }
  }

  /** Bytes described by the first `k` entries. */
  function Prefix(t: seq<Sg>, k: nat): nat
    requires k <= |t|
  {
    if k == 0 then 0 else Prefix(t, k - 1) + t[k - 1].len
  }

  lemma {:induction false} PrefixIsBefore(addr: u64, len: u64, pages: seq<nat>, k: nat)
    requires k <= |pages|
    ensures Prefix(Table(addr, len, pages), k) == Before(addr % 4096, len % 0x1_0000_0000, k)
  {
    if k > 0 {
      PrefixIsBefore(addr, len, pages, k - 1);
      CursorClosed(addr, len, k - 1);
      CursorClosed(addr, len, k);
    }
  }

  lemma AllPages(off: nat, len: nat, r: nat, n: nat)
    requires off < 4096 && r <= len && n == (off + len + 4095) / 4096
    ensures Before(off, r, n) == r
  {
  }

  lemma TotalLen(addr: u64, len: u64, pages: seq<nat>)
    requires |pages| == Touched(addr, len)
    ensures Prefix(Table(addr, len, pages), |pages|) == len % 0x1_0000_0000
  {
    PrefixIsBefore(addr, len, pages, |pages|);
    AllPages(addr % 4096, len, len % 0x1_0000_0000, |pages|);
  }

  /** Turns the table loop makes: the block count goes through a 32-bit field into
      an int, and a negative int makes none. */
  function SgNr(addr: u64, len: u64): nat {
    var n := PagesNr(addr, len) % 0x1_0000_0000;
    if n < 0x8000_0000 then n else 0
  }

  lemma BeforeBound(off: nat, r: nat, k: nat)
    requires off < 4096
    ensures Before(off, r, k) <= r
  {
  }

  /** For every 64-bit length, the entries cover the buffer exactly when the length
      is under 4 GiB. As long as the block count fits an int, what they do cover
      is the length modulo 2^32. */
  lemma CoversIffShort(addr: u64, len: u64, pages: seq<nat>)
    requires |pages| == SgNr(addr, len)
    ensures Prefix(Table(addr, len, pages), |pages|) == len <==> len < 0x1_0000_0000
    ensures len < 0x800_0000_0000 - 8192 ==> Prefix(Table(addr, len, pages), |pages|) == len % 0x1_0000_0000
  {
    hide Table, Prefix, Before;
    PrefixIsBefore(addr, len, pages, |pages|);
    BeforeBound(addr % 4096, len % 0x1_0000_0000, |pages|);
    if len < 0x800_0000_0000 - 8192 {
      PagesNrIsCeiling(addr, len);
      TotalLen(addr, len, pages);
    }
  }

  lemma CutOfPage(off: nat, len: nat, n: nat, k: nat)
    requires off < 4096 && n == (off + len + 4095) / 4096 && k < n
    ensures var t := Before(off, len, k);
      && t <= len
      && (0 < len ==> t < len)
      && (0 < k ==> off + t == 4096 * k)
      && (off + t) % 4096 == (if k == 0 then off else 0)
  {
    assert 4096 * k < off + len || (k == 0 && off + len == 0) || (len == 0 && k == 0);
    if k > 0 {
      assert off + Before(off, len, k) == 4096 * k;
    }
  }

  lemma EntryFields(addr: u64, len: u64, pages: seq<nat>, k: nat)
    requires len < 0x1_0000_0000 && k < |pages|
    ensures var e := Table(addr, len, pages)[k]; var t := Before(addr % 4096, len, k);
      && t <= len
      && e.page == pages[k] && e.offset == (addr % 4096 + t) % 4096 && e.len == Min(4096 - e.offset, len - t)
  {
    assert len % 0x1_0000_0000 == len;
    CursorClosed(addr, len, k);
    LowPart(len, Before(addr % 4096, len, k));
  }

  /** The entry of page `k` is the part of the buffer that lies in that page. */
  lemma EntryInPage(addr: u64, len: u64, pages: seq<nat>, k: nat)
    requires len < 0x1_0000_0000 && k < |pages| == Touched(addr, len)
    ensures var t := Table(addr, len, pages); var e := t[k];
      && (0 < len ==> 0 < e.len && Prefix(t, k) < len)
      && e.page == pages[k]
      && e.offset + e.len <= 4096
      && e.offset == (if k == 0 then addr % 4096 else 0)
      && Prefix(t, k) + e.len == Prefix(t, k + 1) <= len
      && (0 < k ==> addr % 4096 + Prefix(t, k) == 4096 * k)
  {
    assert len % 0x1_0000_0000 == len;
    EntryFields(addr, len, pages, k);
    PrefixIsBefore(addr, len, pages, k);
    CutOfPage(addr % 4096, len, |pages|, k);
  }

  /** Entry `k` starts on page `k` of the buffer, at its first byte of that page. */
  ghost predicate EntryTiles(t: seq<Sg>, addr: u64, len: u64, k: nat)
    requires k < |t|
  {
    && 0 < t[k].len
    && t[k].offset == (addr + Prefix(t, k)) % 4096
    && t[k].offset + t[k].len <= 4096
    && (0 < k ==> t[k].offset == 0)
    && (addr + Prefix(t, k)) / 4096 == addr / 4096 + k
    && Prefix(t, k) < len
  }

  lemma EntryIsTile(addr: u64, len: u64, pages: seq<nat>, k: nat)
    requires 0 < len < 0x1_0000_0000 && k < |pages| == Touched(addr, len)
    ensures EntryTiles(Table(addr, len, pages), addr, len, k)
  {
    EntryInPage(addr, len, pages, k);
    var p := Prefix(Table(addr, len, pages), k);
    PageAndOffset(addr, p, k);
  }

  lemma PageAndOffset(addr: nat, p: nat, k: nat)
    requires if k == 0 then p == 0 else addr % 4096 + p == 4096 * k
    ensures (addr + p) / 4096 == addr / 4096 + k && (addr + p) % 4096 == if k == 0 then addr % 4096 else 0
  {
    assert addr + p == 4096 * (addr / 4096 + k) + if k == 0 then addr % 4096 else 0;
  }

  /** The whole split, for every length the driver handles: no empty entry, each
      inside one page, only the first off a page boundary, consecutive pages in
      order, and the remaining count reaching zero at the last entry and not
      before. */
  lemma ExactTiling(addr: u64, len: u64, pages: seq<nat>)
    requires 0 < len < 0x1_0000_0000 && |pages| == PagesNr(addr, len)
    ensures var t := Table(addr, len, pages);
      |t| > 0 && Prefix(t, |t|) == len && forall k | 0 <= k < |t| :: EntryTiles(t, addr, len, k)
  {
    PagesNrIsCeiling(addr, len);
    TotalLen(addr, len, pages);
    assert |pages| > 0;
    forall k | 0 <= k < |pages|
      ensures EntryTiles(Table(addr, len, pages), addr, len, k)
    {
      EntryIsTile(addr, len, pages, k);
    }
  }

  /** Where byte `x` of the buffer lies: in the entry whose range holds it. */
  lemma ByteInEntry(addr: u64, len: u64, pages: seq<nat>, k: nat, x: nat)
    requires len < 0x1_0000_0000 && k < |pages| == Touched(addr, len)
    requires var t := Table(addr, len, pages); Prefix(t, k) <= x < Prefix(t, k + 1)
    ensures x < len
    ensures var t := Table(addr, len, pages);
      (addr + x) / 4096 - addr / 4096 == k && (addr + x) % 4096 == t[k].offset + (x - Prefix(t, k))
  {
    EntryInPage(addr, len, pages, k);
    var t := Table(addr, len, pages);
    var d := t[k].offset + (x - Prefix(t, k));
    assert addr + x == 4096 * (addr / 4096 + k) + d;
  }
}
