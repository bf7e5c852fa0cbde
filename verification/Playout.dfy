/**
 What the sound card plays.  The DMA is not held up by the driver: when a half ends it goes on
 into the other one, and the interrupt handler comes some time after.  What it plays of a half
 before the handler has closed that half is what is in memory then.
 */
module Playout {
  import opened Runs
  import opened Bytes
  import R = Ring
  import opened Playback

  // Lockstep

  /** Where the DMA is, as long as halves have ended and interrupts been served in turn. */
  ghost predicate Position(p: Play) {
    && p.dmaHalf == (if p.unserved then p.ring.cur else R.Other(p.ring.cur))
    && |p.early| == (if p.unserved then p.dmaPos else 0)
    && |p.output| == Ended(p) * p.ring.size + p.dmaPos
  }

  /** Halves that the card has played to the end. */
  function Ended(p: Play): nat { p.ring.services + if p.unserved then 1 else 0 }

  lemma FetchPosition(p: Play)
    requires Sizes(p) && Position(p) && CanFetch(p) && !DoFetch(p).astray
    ensures Position(DoFetch(p))
  {
    FetchFrame(p);
    NextHalf(Ended(p), p.ring.size);
  }

  lemma NextHalf(k: nat, size: nat)
    ensures (k + 1) * size == k * size + size
  {
  }

  lemma SwapPosition(p: Play)
    requires Position(p) && CanSwap(p) && !DoSwap(p).astray
    ensures Position(DoSwap(p))
  {
    SwapFrame(p);
    SwapCounts(p);
  }

  lemma SwapCounts(p: Play)
    requires CanSwap(p)
    ensures var q := DoSwap(p);
            && q.ring.services == p.ring.services + 1 && q.output == p.output
            && q.dmaHalf == p.dmaHalf && q.dmaPos == p.dmaPos && (!q.astray ==> p.unserved && !p.astray)
  {
  }

  /** Steps of writers, mutex and handler other than the swap leave alone what the card has done. */
  ghost predicate SameCard(p: Play, q: Play) {
    && q.ring.size == p.ring.size && q.ring.cur == p.ring.cur && q.ring.services == p.ring.services
    && q.unserved == p.unserved && q.dmaHalf == p.dmaHalf && q.dmaPos == p.dmaPos
    && q.early == p.early && q.output == p.output && q.handed == p.handed
  }

  lemma ClientFrame(p: Play, s: Step)
    requires Enabled(p, s) && (s.Begin? || s.Reserve? || s.Copy? || s.End?)
    ensures SameCard(p, Apply(p, s)) && p.epoch <= Apply(p, s).epoch && Apply(p, s).clean == p.clean
  {
    match s
    case Begin(t, d) => assert SameCard(p, DoBegin(p, t, d));
    case Reserve(t) => assert SameCard(p, DoReserve(p, t));
    case Copy(t) => CopyFrame(p, t);
    case End(t) => assert SameCard(p, DoEnd(p, t));
  }

  lemma HandlerFrame(p: Play, s: Step)
    requires Enabled(p, s) && (s.Quiet? || s.Pad? || s.Fill? || s.Leave?)
    ensures SameCard(p, Apply(p, s)) && p.epoch <= Apply(p, s).epoch && Apply(p, s).clean == p.clean
  {
    match s
    case Quiet(r) => R.QuietFrame(p.ring, r);
    case Pad => PadFrame(p);
    case Fill => FillFrame(p);
    case Leave => assert SameCard(p, DoLeave(p));
  }

  lemma CardFrame(p: Play, s: Step)
    requires Enabled(p, s) && !s.Fetch? && !s.Swap?
    ensures SameCard(p, Apply(p, s)) && p.epoch <= Apply(p, s).epoch && Apply(p, s).clean == p.clean
  {
    if s.Quiet? || s.Pad? || s.Fill? || s.Leave? { HandlerFrame(p, s); } else { ClientFrame(p, s); }
  }

  lemma PositionStep(p: Play, s: Step)
    requires Sizes(p) && Enabled(p, s) && Position(p) && !Apply(p, s).astray
    ensures Position(Apply(p, s))
  {
    if s.Fetch? { FetchPosition(p); } else if s.Swap? { SwapPosition(p); } else { CardFrame(p, s); }
  }

  lemma {:induction false} PositionRun(size: nat, steps: seq<Step>, p: Play)
    requires size > 0 && Exec(Next, Init(size), steps) == Some(p) && !p.astray
    ensures Inv(p) && p.ring.size == size && Position(p)
  {
    InitInv(size);
    InvRun(Init(size), steps);
    if steps != [] {
      var init, s := steps[..|steps| - 1], steps[|steps| - 1];
      var b := Exec(Next, Init(size), init).value;
      if b.astray { AstrayStays(b, s); }
      PositionRun(size, init, b);
      PositionStep(b, s);
      SizeStays(b, s);
    }
  }

  /** Lockstep of the DMA and the driver, counted in bytes, in every run in which each interrupt is
      served before the next half ends, and none that is not due.  The half the card plays is the one the
      writers do not fill, unless a half has ended that has not been swapped yet; the k-th half ends, and
      the k-th interrupt comes, after exactly k * size bytes; and of the half that is then closed under it
      the card has played dmaPos bytes. */
  lemma Lockstep(size: nat, steps: seq<Step>, p: Play)
    requires size > 0 && Exec(Next, Init(size), steps) == Some(p) && !p.astray
    ensures p.dmaHalf == (if p.unserved then p.ring.cur else R.Other(p.ring.cur))
    ensures |p.output| == Ended(p) * size + p.dmaPos
    ensures 0 <= p.dmaPos < size
    ensures |p.early| == if p.unserved then p.dmaPos else 0
  {
    PositionRun(size, steps, p);
  }

  /** Where the DMA and the driver are after k halves have been played to the end. */
  ghost predicate InTurn(p: Play, k: nat) {
    && p.dmaPos < p.ring.size && |p.output| == k * p.ring.size + p.dmaPos
    && p.dmaHalf == (if k % 2 == 0 then R.One else R.Two)
    && p.ring.cur == (if p.ring.services % 2 == 0 then R.Two else R.One)
  }

  lemma FetchInTurn(p: Play, k: nat) returns (k': nat)
    requires InTurn(p, k) && CanFetch(p)
    ensures InTurn(DoFetch(p), k')
  {
    k' := if p.dmaPos + 1 < p.ring.size then k else k + 1;
    NextHalf(k, p.ring.size);
  }

  lemma SwapInTurn(p: Play, k: nat)
    requires InTurn(p, k) && CanSwap(p)
    ensures InTurn(DoSwap(p), k)
  {
    SwapFrame(p);
    SwapCounts(p);
  }

  lemma StepInTurn(p: Play, s: Step, k: nat) returns (k': nat)
    requires InTurn(p, k) && Enabled(p, s)
    ensures InTurn(Apply(p, s), k')
  {
    k' := k;
    if s.Fetch? {
      k' := FetchInTurn(p, k);
    } else if s.Swap? {
      SwapInTurn(p, k);
    } else {
      CardFrame(p, s);
    }
  }

  lemma Parity(p: Play, k: nat)
    requires InTurn(p, k)
    ensures p.dmaHalf == p.ring.cur <==> (k + p.ring.services) % 2 == 1
  {
    Odd(k, p.ring.services);
  }

  lemma Odd(a: nat, b: nat)
    ensures (a + b) % 2 == 1 <==> a % 2 != b % 2
  {
  }

  /** What is left of lockstep in every run, whatever has gone astray: halves are played in turn and to the end,
      interrupts swap in turn, and the driver's half is the one that the card plays if and only if the number
      of halves played and the number of interrupts served add up to an odd number. */
  lemma {:induction false} InStepByParity(size: nat, steps: seq<Step>, p: Play) returns (k: nat)
    requires size > 0 && Exec(Next, Init(size), steps) == Some(p)
    ensures p.ring.size == size && InTurn(p, k)
    ensures p.dmaHalf == p.ring.cur <==> (k + p.ring.services) % 2 == 1
  {
    if steps == [] {
      k := 0;
    } else {
      var b, s := Exec(Next, Init(size), steps[..|steps| - 1]).value, steps[|steps| - 1];
      k := InStepByParity(size, steps[..|steps| - 1], b);
      SizeStays(b, s);
      k := StepInTurn(b, s, k);
    }
    Parity(p, k);
  }

  // Contents

  function Values(fs: seq<Fetched>): (bs: seq<byte>)
    ensures |bs| == |fs| && forall i | 0 <= i < |fs| :: bs[i] == fs[i].b
  {
    seq(|fs|, i requires 0 <= i < |fs| => fs[i].b)
  }

  /** A half as it is heard if nothing lands in it any more: what was played before the handler closed
      it, and the rest as closed. */
  function Heard(h: Handed): (bs: seq<byte>)
    requires |h.early| <= |h.contents|
    ensures |bs| == |h.contents|
  {
    Values(h.early) + h.contents[|h.early|..]
  }

  ghost predicate Hearable(h: Handed, size: nat) {
    && |h.early| <= size == |h.contents|
    && (h.clean && h.landed ==>
          forall i | 0 <= i < |h.early| && h.early[i].settled :: h.early[i].b == h.contents[i])
  }

  /** These are the first bytes heard of a half: those played before it was closed, and then, if nothing was
      in flight to it any more when it was closed, those it contained. */
  ghost predicate HeardOf(bs: seq<byte>, h: Handed) {
    && |h.early| <= |bs| <= |h.contents|
    && bs[..|h.early|] == Values(h.early)
    && (h.landed ==> bs == Heard(h)[..|bs|])
  }

  /** All of these halves, one after the other, as heard. */
  ghost predicate Played(out: seq<byte>, hs: seq<Handed>)
    decreases |hs|
  {
    if hs == [] then out == [] else
    var last := hs[|hs| - 1];
    && |last.contents| <= |out|
    && HeardOf(out[|out| - |last.contents|..], last)
    && Played(out[..|out| - |last.contents|], hs[..|hs| - 1])
  }

  /** What the card has played, and what it has played ahead of the handler. */
  ghost predicate Sound(out: seq<byte>, handed: seq<Handed>, unserved: bool, pos: nat, early: seq<Fetched>,
                        clean: bool, epoch: seq<byte>, size: nat) {
    && handed != []
    && (forall i | 0 <= i < |handed| :: Hearable(handed[i], size))
    && (clean ==> forall i | 0 <= i < |early| && early[i].settled :: i < |epoch| && early[i].b == epoch[i])
    && pos <= |out| && pos < size
    && if unserved
       then |early| == pos && Played(out[..|out| - pos], handed) && out[|out| - pos..] == Values(early)
       else early == [] && Played(out[..|out| - pos], handed[..|handed| - 1])
            && HeardOf(out[|out| - pos..], handed[|handed| - 1])
  }

  ghost predicate SoundInv(p: Play) {
    Sound(p.output, p.handed, p.unserved, p.dmaPos, p.early, p.clean, p.epoch, p.ring.size)
  }

  /** One byte more of a half that has been closed. */
  lemma HeardMore(bs: seq<byte>, h: Handed, b: byte)
    requires HeardOf(bs, h) && |bs| < |h.contents| && (h.landed ==> b == h.contents[|bs|])
    ensures HeardOf(bs + [b], h)
  {
    assert (bs + [b])[..|h.early|] == bs[..|h.early|];
    if h.landed {
      assert Heard(h)[|bs|] == b;
      assert Heard(h)[..|bs| + 1] == Heard(h)[..|bs|] + [b];
    }
  }

  /** One byte out of the half closed last. */
  lemma FetchClosed(out: seq<byte>, handed: seq<Handed>, pos: nat, clean: bool, epoch: seq<byte>, size: nat, b: byte,
                    out': seq<byte>)
    requires Sound(out, handed, false, pos, [], clean, epoch, size) && out' == out + [b]
    requires handed[|handed| - 1].landed ==> b == handed[|handed| - 1].contents[pos]
    ensures pos + 1 < size ==> Sound(out', handed, false, pos + 1, [], clean, epoch, size)
    ensures pos + 1 == size ==> Sound(out', handed, true, 0, [], clean, epoch, size)
  {
    var k := |out| - pos;
    HeardMore(out[k..], handed[|handed| - 1], b);
    assert out'[..k] == out[..k];
    assert out'[k..] == out[k..] + [b];
    if pos + 1 == size {
      assert out'[..|out'|] == out';
      assert out'[|out'|..] == Values([]);
    }
  }

  /** One byte out of the half that is still being filled. */
  lemma FetchAhead(out: seq<byte>, handed: seq<Handed>, pos: nat, early: seq<Fetched>, clean: bool, epoch: seq<byte>,
                   size: nat, f: Fetched, out': seq<byte>, early': seq<Fetched>)
    requires Sound(out, handed, true, pos, early, clean, epoch, size) && pos + 1 < size
    requires clean && f.settled ==> pos < |epoch| && f.b == epoch[pos]
    requires out' == out + [f.b] && early' == early + [f]
    ensures Sound(out', handed, true, pos + 1, early', clean, epoch, size)
  {
    var k := |out| - pos;
    assert out'[..k] == out[..k];
    assert out'[k..] == Values(early) + [f.b] == Values(early');
  }

  /** The handler closes the half that the card has begun to play. */
  lemma CloseHalf(out: seq<byte>, handed: seq<Handed>, pos: nat, size: nat, h: Handed, handed': seq<Handed>,
                  clean': bool)
    requires Sound(out, handed, true, pos, h.early, h.clean, h.bytes, size)
    requires RightInTime(h, size) && handed' == handed + [h]
    ensures Sound(out, handed', false, pos, [], clean', [], size)
  {
    if h.clean && h.landed {
      forall i | 0 <= i < |h.early| && h.early[i].settled ensures h.early[i].b == h.contents[i] {
        assert h.contents[i] == h.bytes[i];
      }
    }
    assert Hearable(h, size);
    assert handed'[..|handed|] == handed;
    assert Heard(h)[..pos] == Values(h.early);
    assert HeardOf(Values(h.early), h);
  }

  lemma MoreReserved(out: seq<byte>, handed: seq<Handed>, unserved: bool, pos: nat, early: seq<Fetched>, clean: bool,
                     epoch: seq<byte>, size: nat, epoch': seq<byte>)
    requires Sound(out, handed, unserved, pos, early, clean, epoch, size) && epoch <= epoch'
    ensures Sound(out, handed, unserved, pos, early, clean, epoch', size)
  {
  }

  lemma FetchSound(p: Play)
    requires Sizes(p) && Contents(p) && Position(p) && SoundInv(p) && CanFetch(p) && !DoFetch(p).astray
    ensures SoundInv(DoFetch(p))
  {
    if p.unserved { FetchSoundAhead(p); } else { FetchSoundClosed(p); }
  }

  lemma FetchSoundAhead(p: Play)
    requires Sizes(p) && Contents(p) && Position(p) && SoundInv(p) && CanFetch(p) && !DoFetch(p).astray && p.unserved
    ensures SoundInv(DoFetch(p))
  {
    var f := Fetched(Back(p)[p.dmaPos], Settled(p, p.dmaPos));
    FetchedAhead(p);
    FetchAhead(p.output, p.handed, p.dmaPos, p.early, p.clean, p.epoch, p.ring.size, f, p.output + [f.b],
               p.early + [f]);
  }

  lemma FetchedAhead(p: Play)
    requires Sizes(p) && Position(p) && CanFetch(p) && !DoFetch(p).astray && p.unserved
    ensures var q, b := DoFetch(p), Back(p)[p.dmaPos];
            && p.dmaPos + 1 < p.ring.size && q.output == p.output + [b]
            && q.early == p.early + [Fetched(b, Settled(p, p.dmaPos))]
            && q.unserved && q.dmaPos == p.dmaPos + 1 && q.handed == p.handed && q.clean == p.clean
            && q.epoch == p.epoch && q.ring == p.ring
  {
  }

  lemma FetchSoundClosed(p: Play)
    requires Sizes(p) && Contents(p) && Position(p) && SoundInv(p) && CanFetch(p) && !p.unserved
    ensures SoundInv(DoFetch(p))
  {
    var b := Front(p)[p.dmaPos];
    FetchedClosed(p);
    FetchClosed(p.output, p.handed, p.dmaPos, p.clean, p.epoch, p.ring.size, b, p.output + [b]);
  }

  lemma FetchedClosed(p: Play)
    requires Sizes(p) && Position(p) && CanFetch(p) && !p.unserved
    ensures var q, b := DoFetch(p), Front(p)[p.dmaPos];
            && q.output == p.output + [b] && q.early == p.early == []
            && q.unserved == (p.dmaPos + 1 == p.ring.size)
            && q.dmaPos == (if p.dmaPos + 1 < p.ring.size then p.dmaPos + 1 else 0)
            && q.handed == p.handed && q.clean == p.clean && q.epoch == p.epoch && q.ring == p.ring
  {
  }

  lemma SwapSound(p: Play)
    requires CanSwap(p) && Sizes(p) && Contents(p) && Contents(DoSwap(p)) && SoundInv(p) && !DoSwap(p).astray
    ensures SoundInv(DoSwap(p))
  {
    SwapFrame(p);
    SwapCounts(p);
    var q := DoSwap(p);
    assert q.handed[|p.handed|] == Closed(p);
    assert RightInTime(Closed(p), p.ring.size);
    CloseHalf(p.output, p.handed, p.dmaPos, p.ring.size, Closed(p), q.handed, q.clean);
  }

  lemma SoundStep(p: Play, s: Step)
    requires Inv(p) && Position(p) && SoundInv(p) && Enabled(p, s) && Inv(Apply(p, s)) && !Apply(p, s).astray
    ensures SoundInv(Apply(p, s))
  {
    if s.Fetch? {
      FetchSound(p);
    } else if s.Swap? {
      SwapSound(p);
    } else {
      CardFrame(p, s);
      MoreReserved(p.output, p.handed, p.unserved, p.dmaPos, p.early, p.clean, p.epoch, p.ring.size, Apply(p, s).epoch);
    }
  }

  lemma InitSound(size: nat)
    requires size > 0
    ensures SoundInv(Init(size))
  {
    var p := Init(size);
    assert p.handed[..0] == [];
    assert p.output[..0] == [] && p.output[0..] == [];
    assert Heard(p.handed[0])[..0] == [];
    assert HeardOf([], p.handed[0]);
  }

  /** In every run in which each interrupt is served before the next half ends, and none that is not due,
      whether or not bytes land in time: the card has played the halves handed over, in order and
      nothing else, and is dmaPos bytes into the next.  Of each half it may have played some bytes before
      the handler closed it: no more than size of them, from the start of the half.  From there on it has
      played what was handed over, if nothing was in flight to that half when it was closed.  If moreover
      nothing was in flight to it when it was opened, then of the bytes played before that the ones that had
      been reserved and copied are those the half was handed over with. */
  lemma {:induction false} CardPlaysHalves(size: nat, steps: seq<Step>, p: Play)
    requires size > 0 && Exec(Next, Init(size), steps) == Some(p) && !p.astray
    ensures Sound(p.output, p.handed, p.unserved, p.dmaPos, p.early, p.clean, p.epoch, size)
  {
    PositionRun(size, steps, p);
    if steps == [] {
      InitSound(size);
    } else {
      var init, s := steps[..|steps| - 1], steps[|steps| - 1];
      var b := Exec(Next, Init(size), init).value;
      if b.astray { AstrayStays(b, s); }
      PositionRun(size, init, b);
      CardPlaysHalves(size, init, b);
      SoundStep(b, s);
    }
  }

  /** A half to which nothing was in flight when it was opened and closed is heard exactly as it was handed
      over, if every byte played before the handler closed it had been reserved and copied by then. */
  lemma HeardAsHandedOver(h: Handed, size: nat, bs: seq<byte>)
    requires Hearable(h, size) && HeardOf(bs, h) && |bs| == size && h.clean && h.landed
    requires forall i | 0 <= i < |h.early| :: h.early[i].settled
    ensures bs == h.contents
  {
    assert Heard(h)[..size] == Heard(h);
  }
}
