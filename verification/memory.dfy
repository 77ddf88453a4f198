/** Byte-addressed memories, and the two of them a transfer connects. */
module Memory {
  import opened Words

  type Mem = nat -> byte

  /** Host memory by bus address, and device memory by SoC address. */
  datatype World = World(host: Mem, dev: Mem)

  function Read(m: Mem, at: nat, n: nat): (s: seq<byte>)
    ensures |s| == n && forall k | 0 <= k < n :: s[k] == m(at + k)
  {
    seq(n, k requires 0 <= k < n => m(at + k))
  }

  /** `m` with `s` stored from address `at` on. */
  function Store(m: Mem, at: nat, s: seq<byte>): Mem {
    (a: nat) => if at <= a < at + |s| then s[a - at] else m(a)
  }

  /** `to` with `n` bytes from `src` of `from` copied to `dst`. */
  function Copy(from: Mem, src: nat, to: Mem, dst: nat, n: nat): Mem {
    (a: nat) => if dst <= a < dst + n then from(src + (a - dst)) else to(a)
  }

  ghost predicate Disjoint(a: nat, n: nat, b: nat, m: nat) {
    a + n <= b || b + m <= a
  }
}
