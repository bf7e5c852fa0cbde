/** Byte sequences and the few operations on them that the device models share. */
module Bytes {

  type byte = x: int | 0 <= x < 256

  /** Counts from here on are negative in a signed 32-bit int. */
  const INT_LIMIT := 0x8000_0000

  /** A buffer of n silent (zero) bytes. */
  function Zeros(n: nat): (z: seq<byte>)
    ensures |z| == n && forall i | 0 <= i < n :: z[i] == 0
  {
    seq(n, _ => 0)
  }

  /** buf with the bytes from off on replaced by bs. */
  function Splice<T>(buf: seq<T>, off: nat, bs: seq<T>): (r: seq<T>)
    requires off + |bs| <= |buf|
    ensures |r| == |buf|
    ensures forall i | 0 <= i < |buf| :: r[i] == if off <= i < off + |bs| then bs[i - off] else buf[i]
  {
    buf[..off] + bs + buf[off + |bs|..]
  }

  /** A slice of which n elements have been dealt with. */
  lemma SliceParts<T>(a: seq<T>, from: nat, upto: nat, n: nat)
    requires from <= upto <= |a| && n <= upto - from
    ensures a[from..upto][..n] == a[from..from + n] && a[from..upto][n..] == a[from + n..upto]
  {
  }

  lemma SubSlice<T>(a: seq<T>, lo: nat, hi: nat, i: nat, j: nat)
    requires lo <= hi <= |a| && i <= j <= hi - lo
    ensures a[lo..hi][i..j] == a[lo + i..lo + j]
  {
    forall k | 0 <= k < j - i ensures a[lo..hi][i..j][k] == a[lo + i..lo + j][k] {
    }
  }

  /** A slice that the new bytes fall into, and one that they do not. */
  lemma SpliceWithin<T>(a: seq<T>, b: seq<T>, lo: nat, hi: nat, off: nat, bs: seq<T>)
    requires lo <= hi <= |a| && off + |bs| <= hi - lo && b == Splice(a, lo + off, bs)
    ensures b[lo..hi] == Splice(a[lo..hi], off, bs)
  {
  }

  lemma SpliceApart<T>(a: seq<T>, b: seq<T>, lo: nat, hi: nat, at: nat, bs: seq<T>)
    requires lo <= hi <= |a| && at + |bs| <= |a| && b == Splice(a, at, bs) && (hi <= at || at + |bs| <= lo)
    ensures b[lo..hi] == a[lo..hi]
  {
  }

  /** A slice that ends with the new bytes. */
  lemma SpliceEnds<T>(a: seq<T>, b: seq<T>, lo: nat, at: nat, bs: seq<T>)
    requires lo <= at && at + |bs| <= |a| && b == Splice(a, at, bs)
    ensures b[lo..at + |bs|] == a[lo..at] + bs
  {
  }

  lemma SpliceOne<T>(a: seq<T>, i: nat, x: T)
    requires i < |a|
    ensures Splice(a, i, [x]) == a[i := x]
  {
  }

  /** What a splice puts in its place and what it leaves. */
  lemma SpliceParts<T>(a: seq<T>, b: seq<T>, at: nat, bs: seq<T>)
    requires at + |bs| <= |a| && b == Splice(a, at, bs)
    ensures b[..at] == a[..at] && b[at..at + |bs|] == bs && forall k | at + |bs| <= k < |a| :: b[k] == a[k]
  {
  }

  lemma Grows<T>(a: seq<T>, b: seq<T>, c: seq<T>, bc: seq<T>)
    requires bc == b + c
    ensures a + b + c == a + bc
  {
  }

  lemma NothingMore<T>(a: seq<T>)
    ensures a + [] == a
  {
  }

  lemma SpliceNothing<T>(a: seq<T>, i: nat)
    requires i <= |a|
    ensures Splice(a, i, []) == a
  {
  }

  predicate AllZero(bs: seq<byte>) { forall i | 0 <= i < |bs| :: bs[i] == 0 }

  /** write_silence */
  method Clear(dst: array<byte>, to: nat, n: nat, ghost zeros: seq<byte>)
    requires to + n <= dst.Length && |zeros| == n && AllZero(zeros)
    modifies dst
    ensures dst[..] == Splice(old(dst[..]), to, zeros)
  {
    for i := 0 to n
      invariant forall k | 0 <= k < dst.Length :: dst[k] == if to <= k < to + i then 0 else old(dst[k])
    {
      dst[to + i] := 0;
    }
  }

  method Memcpy(dst: array<byte>, to: nat, src: array<byte>, from: nat, n: nat)
    requires dst != src && from + n <= src.Length && to + n <= dst.Length
    modifies dst
    ensures dst[..] == Splice(old(dst[..]), to, src[from..from + n])
  {
    for i := 0 to n
      invariant forall k | 0 <= k < dst.Length ::
                  dst[k] == if to <= k < to + i then src[from + k - to] else old(dst[k])
    {
      dst[to + i] := src[from + i];
    }
  }

  // Logs of bytes tagged with the thread that moved them.

  function Tag(t: nat, bs: seq<byte>): (log: seq<(nat, byte)>)
    ensures |log| == |bs| && forall i | 0 <= i < |bs| :: log[i] == (t, bs[i])
  {
    seq(|bs|, i requires 0 <= i < |bs| => (t, bs[i]))
  }

  function Untag(log: seq<(nat, byte)>): (bs: seq<byte>)
    ensures |bs| == |log| && forall i | 0 <= i < |log| :: bs[i] == log[i].1
  {
    seq(|log|, i requires 0 <= i < |log| => log[i].1)
  }

  /** The bytes of the log that thread t moved, in log order. */
  function Project(log: seq<(nat, byte)>, t: nat): seq<byte>
  {
    if log == [] then [] else
    var rest := Project(log[..|log| - 1], t);
    var last := log[|log| - 1];
    if last.0 == t then rest + [last.1] else rest
  }

  lemma {:induction false} ProjectTag(log: seq<(nat, byte)>, u: nat, bs: seq<byte>, t: nat)
    ensures Project(log + Tag(u, bs), t) == Project(log, t) + if u == t then bs else []
  {
    if bs == [] {
      assert log + Tag(u, bs) == log;
    } else {
      var n := |bs| - 1;
      assert (log + Tag(u, bs))[..|log| + n] == log + Tag(u, bs[..n]);
      assert bs == bs[..n] + [bs[n]];
      ProjectTag(log, u, bs[..n], t);
    }
  }

  lemma TagGrows(log: seq<(nat, byte)>, t: nat, a: seq<byte>, b: seq<byte>, ab: seq<byte>)
    requires ab == a + b
    ensures log + Tag(t, a) + Tag(t, b) == log + Tag(t, ab)
  {
  }

  lemma UntagTag(log: seq<(nat, byte)>, u: nat, bs: seq<byte>)
    ensures Untag(log + Tag(u, bs)) == Untag(log) + bs
  {
  }
}
