/** Building the descriptor image in the kernel's buffer: set_hdma_desc's loop. */
module ListBuilder {
  import opened Words
  import opened Memory
  import opened Descriptor
  import opened Engine
  import opened Scatter
  import opened Pipeline

  /** Element `k` of `s`, which is all there is to it over `was`. */
  ghost predicate Holds(s: seq<byte>, was: seq<byte>, jobs: seq<Job>, k: nat)
    requires |s| == |was| == 24 * (|jobs| + 1) && k < |jobs|
  {
    var last := if k == |jobs| - 1 then 1 else 0;
    s[24 * k..24 * k + 24] == DataImage(was[24 * k..24 * k + 24], jobs[k].src, jobs[k].dst, jobs[k].len, last, last, 1)
  }

  /** The first `i` elements are written over `was`, the rest is untouched. */
  ghost predicate Encodes(s: seq<byte>, was: seq<byte>, jobs: seq<Job>, i: nat)
    requires i <= |jobs|
  {
    && |s| == |was| == 24 * (|jobs| + 1)
    && (forall k | 0 <= k < i :: Holds(s, was, jobs, k))
    && s[24 * i..] == was[24 * i..]
  }

  /** The whole list, byte for byte: every bit the setters do not write is as it
      was in `was`. */
  ghost predicate Written(s: seq<byte>, was: seq<byte>, jobs: seq<Job>, ptr: u64) {
    && |s| == |was| == 24 * (|jobs| + 1)
    && (forall k | 0 <= k < |jobs| :: Holds(s, was, jobs, k))
    && s[24 * |jobs|..] == LinkImage(was[24 * |jobs|..], ptr, 1, 0)
  }

  /** Read back, such a list is the encoding of its jobs. */
  lemma WrittenIsImage(s: seq<byte>, was: seq<byte>, jobs: seq<Job>, ptr: u64)
    requires Written(s, was, jobs, ptr)
    ensures IsImage(s, jobs, ptr)
  {
    hide Decode, DataImage, LinkImage;
    forall k | 0 <= k < |jobs|
      ensures var last := if k == |jobs| - 1 then 1 else 0;
        Decode(s[24 * k..24 * k + 24]) == Data(1, last, last, jobs[k].src, jobs[k].dst, jobs[k].len)
    {
      var last := if k == |jobs| - 1 then 1 else 0;
      assert Holds(s, was, jobs, k);
      DecodeDataImage(was[24 * k..24 * k + 24], jobs[k].src, jobs[k].dst, jobs[k].len, last, last, 1);
    }
    DecodeLinkImage(was[24 * |jobs|..], ptr, 1, 0);
  }

  lemma SpliceSlices(s: seq<byte>, at: nat, e: seq<byte>)
    requires at + |e| <= |s|
    ensures Splice(s, at, e)[at..at + |e|] == e
    ensures Splice(s, at, e)[..at] == s[..at] && Splice(s, at, e)[at + |e|..] == s[at + |e|..]
  {
  }

  lemma EncodesMore(s: seq<byte>, was: seq<byte>, jobs: seq<Job>, i: nat)
    requires i < |jobs| && Encodes(s, was, jobs, i)
    ensures var last := if i == |jobs| - 1 then 1 else 0;
      Encodes(Splice(s, 24 * i, DataImage(s[24 * i..24 * i + 24], jobs[i].src, jobs[i].dst, jobs[i].len, last, last, 1)),
              was, jobs, i + 1)
  {
    hide DataImage, Splice;
    var last := if i == |jobs| - 1 then 1 else 0;
    var e := DataImage(s[24 * i..24 * i + 24], jobs[i].src, jobs[i].dst, jobs[i].len, last, last, 1);
    var s' := Splice(s, 24 * i, e);
    SpliceSlices(s, 24 * i, e);
    assert s[24 * i..24 * i + 24] == s[24 * i..][..24] == was[24 * i..24 * i + 24];
    assert s[24 * i + 24..] == s[24 * i..][24..] == was[24 * i + 24..];
    forall k | 0 <= k < i ensures Holds(s', was, jobs, k) {
      assert Holds(s, was, jobs, k);
      assert s'[24 * k..24 * k + 24] == s'[..24 * i][24 * k..24 * k + 24];
      assert s[24 * k..24 * k + 24] == s[..24 * i][24 * k..24 * k + 24];
    }
  }

  lemma EncodesAll(s: seq<byte>, was: seq<byte>, jobs: seq<Job>, ptr: u64)
    requires Encodes(s, was, jobs, |jobs|)
    ensures var n := |jobs|;
      Written(Splice(s, 24 * n, LinkImage(s[24 * n..24 * n + 24], ptr, 1, 0)), was, jobs, ptr)
  {
    hide LinkImage, DataImage, Splice;
    var n := |jobs|;
    var e := LinkImage(s[24 * n..24 * n + 24], ptr, 1, 0);
    var s' := Splice(s, 24 * n, e);
    SpliceSlices(s, 24 * n, e);
    assert s[24 * n..24 * n + 24] == s[24 * n..] == was[24 * n..];
    assert s'[24 * n..] == s'[24 * n..24 * n + 24];
    forall k | 0 <= k < n ensures Holds(s', was, jobs, k) {
      assert Holds(s, was, jobs, k);
      assert s'[24 * k..24 * k + 24] == s'[..24 * n][24 * k..24 * k + 24];
      assert s[24 * k..24 * k + 24] == s[..24 * n][24 * k..24 * k + 24];
    }
  }

  lemma {:induction false} PrefixGrows(t: seq<Sg>, i: nat, j: nat)
    requires i <= j <= |t|
    ensures Prefix(t, i) <= Prefix(t, j)
  {
    if i < j {
      PrefixGrows(t, i, j - 1);
    }
  }

  /** Fills `buf`, whatever it holds, with the elements of the table and the
      closing link to `ptr`. `base` is the transfer's device address. */
  method BuildList(buf: array<byte>, dir: Direction, base: u64, sgl: seq<Sg>, ptr: u64)
    requires buf.Length == 24 * (|sgl| + 1)
    requires Prefix(sgl, |sgl|) < 0x1_0000_0000_0000_0000
    modifies buf
    ensures Written(buf[..], old(buf[..]), JobsOf(dir, base, sgl), ptr) && IsImage(buf[..], JobsOf(dir, base, sgl), ptr)
  {
    hide Decode, Splice, DataImage, LinkImage, IsImage, Encodes, Written, ToBytes;
    ghost var jobs, was := JobsOf(dir, base, sgl), buf[..];
    EncodesNone(was, jobs);
    var xferLen: u64 := 0;
    for i := 0 to |sgl|
      invariant xferLen == Prefix(sgl, i)
      invariant Encodes(buf[..], was, jobs, i)
    {
      PrefixGrows(sgl, i + 1, |sgl|);
      var len := sgl[i].len;
      var hostAddr: u64 := (sgl[i].page * 4096 + sgl[i].offset) % 0x1_0000_0000_0000_0000;
      var srcAddr, desAddr;
      if dir == RdCh {
        desAddr := (base as int + xferLen) % 0x1_0000_0000_0000_0000;
        srcAddr := hostAddr;
      } else {
        srcAddr := (base as int + xferLen) % 0x1_0000_0000_0000_0000;
        desAddr := hostAddr;
      }
      var len32 := len % 0x1_0000_0000;
      EncodesMore(buf[..], was, jobs, i);
      assert buf[24 * i..24 * i + 24] == buf[..][24 * i..24 * i + 24];
      if i == |sgl| - 1 {
        SetDataElement(buf, 24 * i, srcAddr, desAddr, len32, 1, 1, 1);
      } else {
        SetDataElement(buf, 24 * i, srcAddr, desAddr, len32, 0, 0, 1);
      }
      xferLen := xferLen + len;
    }
    var n := |sgl|;
    EncodesAll(buf[..], was, jobs, ptr);
    assert buf[24 * n..24 * n + 24] == buf[..][24 * n..24 * n + 24];
    SetLinkElement(buf, 24 * n, ptr, 1, 0);
    WrittenIsImage(buf[..], was, jobs, ptr);
  }

  lemma EncodesNone(s: seq<byte>, jobs: seq<Job>)
    requires |s| == 24 * (|jobs| + 1)
    ensures Encodes(s, s, jobs, 0)
  {
  }
}
