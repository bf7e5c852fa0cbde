/** A DMA area as the two halves of a ring and what lies before and after them. */
module Halves {
  import opened Bytes
  import opened Ring

  datatype Parts = Parts(before: seq<byte>, one: seq<byte>, two: seq<byte>, after: seq<byte>)

  function Cut(a: seq<byte>, at: nat, mid: nat, end: nat): Parts
    requires at <= mid <= end <= |a|
  {
    Parts(a[0..at], a[at..mid], a[mid..end], a[end..|a|])
  }

  /** One half with some bytes replaced, everything else as it was. */
  function Overwritten(p: Parts, half: Half, off: nat, bs: seq<byte>): Parts
    requires off + |bs| <= |if half.One? then p.one else p.two|
  {
    if half.One? then p.(one := Splice(p.one, off, bs)) else p.(two := Splice(p.two, off, bs))
  }

  /** A slice of a half is a slice of the area. */
  lemma SliceOfHalf(a: seq<byte>, at: nat, mid: nat, end: nat, half: Half, off: nat, n: nat)
    requires at <= mid <= end <= |a| && off + n <= (if half.One? then mid - at else end - mid)
    ensures var src := (if half.One? then at else mid) + off;
            a[src..src + n] ==
            (if half.One? then Cut(a, at, mid, end).one else Cut(a, at, mid, end).two)[off..off + n]
  {
    if half.One? { SubSlice(a, at, mid, off, off + n); } else { SubSlice(a, mid, end, off, off + n); }
  }

  /** Bytes written into one half of the area, at i, change that half and nothing else. */
  lemma WrittenIntoHalf(a: seq<byte>, b: seq<byte>, at: nat, mid: nat, end: nat, half: Half, off: nat, i: nat,
                        bs: seq<byte>)
    requires at <= mid <= end <= |a| && off + |bs| <= (if half.One? then mid - at else end - mid)
    requires i == (if half.One? then at else mid) + off && b == Splice(a, i, bs)
    ensures Cut(b, at, mid, end) == Overwritten(Cut(a, at, mid, end), half, off, bs)
  {
    SpliceApart(a, b, 0, at, i, bs);
    SpliceApart(a, b, end, |a|, i, bs);
    if half.One? {
      SpliceWithin(a, b, at, mid, off, bs);
      SpliceApart(a, b, mid, end, i, bs);
    } else {
      SpliceApart(a, b, at, mid, i, bs);
      SpliceWithin(a, b, mid, end, off, bs);
    }
  }
}
