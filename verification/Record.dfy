/**
 The record ring with its bytes: readers, the record interrupt handler and the DMA that fills
 the front half.  The control is Ring's, the same as for playback.  Nothing is assumed about
 timing; the history says which bytes the DMA has stored over before they were copied.
 */
module Record {
  import opened Runs
  import opened Bytes
  import R = Ring

  /** A half that readers can no longer read from: what it contained when it was given to them, and
      how much of it was taken. */
  datatype Consumed = Consumed(contents: seq<byte>, taken: nat)

  datatype Rec = Rec(
    ring: R.Ring,
    one: seq<byte>, two: seq<byte>,    // rd_1, rd_2
    dmaHalf: R.Half, dmaPos: nat,      // where the DMA stores next
    unserved: bool,                    // a half has been filled and not been swapped yet
    // History
    captured: seq<byte>,               // what the sound card has recorded
    given: seq<byte>,                  // the back half as it was when it was given to the readers
    consumed: seq<Consumed>,           // the back halves before it
    stream: seq<(nat, byte)>,          // every byte reserved, in order, with its reader
    got: map<nat, seq<byte>>,          // what each thread has been given
    asked: map<nat, nat>,              // how many bytes each thread's calls have been for so far
    over: set<nat>,                    // where the DMA has stored in the back half since it was given
    overtaken: set<nat>,               // which bytes of the stream were stored over before they were reserved
    spoilt: set<(nat, nat)>,           // (t, k): the k-th byte given to t was stored over after it was reserved
    astray: bool                       // interrupts and ends of halves have not come one after the other
  )

  /** pcm_open, record part */
  function Init(size: nat): Rec {
    Rec(R.Init(size), Zeros(size), Zeros(size), R.One, 0, false, [], Zeros(size), [], [], map[], map[],
        {}, {}, {}, false)
  }

  function Buffer(p: Rec, h: R.Half): seq<byte> { if h.One? then p.one else p.two }
  function Back(p: Rec): seq<byte> { Buffer(p, p.ring.cur) }
  function Front(p: Rec): seq<byte> { Buffer(p, R.Other(p.ring.cur)) }

  /** to_read is a signed 32-bit int, as to_write is in pcm_write. */
  function ToRead(n: nat): nat { if n < INT_LIMIT then n else 0 }

  datatype Step =
    | Begin(t: nat, n: nat)         // pcm_read is called
    | Reserve(t: nat) | Copy(t: nat) | End(t: nat)
    | Quiet(r: R.Step)              // a step of the mutex or the lock
    | Swap | Leave
    | Capture(b: byte)              // the DMA stores one byte

  function DoBegin(p: Rec, t: nat, n: nat): Rec
    requires R.Enabled(p.ring, R.Begin(t, ToRead(n)))
  {
    p.(ring := R.Apply(p.ring, R.Begin(t, ToRead(n))), asked := p.asked[t := Asked(p.asked, t) + ToRead(n)])
  }

  predicate CanReserve(p: Rec, t: nat) {
    R.Enabled(p.ring, R.Reserve(t)) && p.ring.used + p.ring.lock.phase.n <= |Back(p)|
  }

  function DoReserve(p: Rec, t: nat): Rec
    requires CanReserve(p, t)
  {
    var n := p.ring.lock.phase.n;
    p.(ring := R.Apply(p.ring, R.Reserve(t)),
       stream := p.stream + Tag(t, Back(p)[p.ring.used..p.ring.used + n]),
       overtaken := p.overtaken + TooLate(|p.stream|, p.ring.used, n, p.over))
  }

  /** Bytes of the stream that are reserved now although the DMA has stored over them. */
  function TooLate(at: nat, used: nat, n: nat, over: set<nat>): set<nat> {
    set k | at <= k < at + n && IsOver(k, at, used, over)
  }

  predicate IsOver(k: nat, at: nat, used: nat, over: set<nat>) { used + k - at in over }

  predicate CanCopy(p: Rec, t: nat) {
    && R.Enabled(p.ring, R.Copy(t))
    && var c := p.ring.copying[t];
       c.off + c.len <= |Buffer(p, c.half)|
  }

  function DoCopy(p: Rec, t: nat): Rec
    requires CanCopy(p, t)
  {
    var c := p.ring.copying[t];
    p.(ring := R.Apply(p.ring, R.Copy(t)),
       got := p.got[t := Got(p.got, t) + Buffer(p, c.half)[c.off..c.off + c.len]])
  }

  function DoEnd(p: Rec, t: nat): Rec
    requires R.Enabled(p.ring, R.End(t))
  {
    p.(ring := R.Apply(p.ring, R.End(t)))
  }

  predicate CanSwap(p: Rec) { R.Enabled(p.ring, R.HSwap) }

  function DoSwap(p: Rec): Rec
    requires CanSwap(p)
  {
    p.(ring := R.Apply(p.ring, R.HSwap), unserved := false,
       consumed := p.consumed + [Consumed(p.given, p.ring.used)], given := Front(p), over := {},
       astray := p.astray || !p.unserved)
  }

  predicate CanQuiet(p: Rec, r: R.Step) {
    R.Quiet(r) && R.Enabled(p.ring, r)
  }

  function DoQuiet(p: Rec, r: R.Step): Rec
    requires CanQuiet(p, r)
  {
    p.(ring := R.Apply(p.ring, r))
  }

  function DoLeave(p: Rec): Rec
    requires R.Enabled(p.ring, R.HLeave)
  {
    p.(ring := R.Apply(p.ring, R.HLeave))
  }

  predicate CanCapture(p: Rec) { p.dmaPos < |Buffer(p, p.dmaHalf)| }

  /** The bytes that are in flight out of place i of half h, each as the k-th byte given to its reader. */
  function Hit(copying: map<nat, R.Chunk>, got: map<nat, seq<byte>>, h: R.Half, i: nat): set<(nat, nat)> {
    set t | t in copying && copying[t].half == h && R.Within(copying[t], i) :: (t, |Got(got, t)| + i - copying[t].off)
  }

  function Stored(p: Rec, b: byte): Rec
    requires CanCapture(p)
  {
    if p.dmaHalf.One? then p.(one := p.one[p.dmaPos := b]) else p.(two := p.two[p.dmaPos := b])
  }

  function Noted(p: Rec, b: byte): Rec {
    p.(captured := p.captured + [b], spoilt := p.spoilt + Hit(p.ring.copying, p.got, p.dmaHalf, p.dmaPos),
       over := p.over + if p.dmaHalf == p.ring.cur then {p.dmaPos} else {})
  }

  function Advanced(p: Rec): Rec {
    if p.dmaPos + 1 < p.ring.size then p.(dmaPos := p.dmaPos + 1)
    else p.(dmaPos := 0, dmaHalf := R.Other(p.dmaHalf), unserved := true, astray := p.astray || p.unserved)
  }

  /** Nothing stops the DMA: it stores on whether or not the handler has swapped. */
  function DoCapture(p: Rec, b: byte): Rec
    requires CanCapture(p)
  {
    Advanced(Noted(Stored(p, b), b))
  }

  predicate Enabled(p: Rec, s: Step) {
    match s
    case Begin(t, n) => R.Enabled(p.ring, R.Begin(t, ToRead(n)))
    case Reserve(t) => CanReserve(p, t)
    case Copy(t) => CanCopy(p, t)
    case End(t) => R.Enabled(p.ring, R.End(t))
    case Quiet(r) => CanQuiet(p, r)
    case Swap => CanSwap(p)
    case Leave => R.Enabled(p.ring, R.HLeave)
    case Capture(b) => CanCapture(p)
  }

  function Apply(p: Rec, s: Step): Rec
    requires Enabled(p, s)
  {
    match s
    case Begin(t, n) => DoBegin(p, t, n)
    case Reserve(t) => DoReserve(p, t)
    case Copy(t) => DoCopy(p, t)
    case End(t) => DoEnd(p, t)
    case Quiet(r) => DoQuiet(p, r)
    case Swap => DoSwap(p)
    case Leave => DoLeave(p)
    case Capture(b) => DoCapture(p, b)
  }

  /** Every step that is possible. */
  function Next(p: Rec, s: Step): Option<Rec> {
    if Enabled(p, s) then Some(Apply(p, s)) else None
  }

  /** Steps of the threads that are in calls. */
  predicate OfThread(s: Step) {
    s.Reserve? || s.Copy? || s.End? || (s.Quiet? && !s.r.Begin? && !R.HandlerStep(s.r))
  }

  /** Steps other than new calls. */
  predicate NoCall(s: Step) { !s.Begin? && (s.Quiet? ==> !s.r.Begin?) }

  // Invariants

  function Got(got: map<nat, seq<byte>>, t: nat): seq<byte> { if t in got then got[t] else [] }
  function Asked(asked: map<nat, nat>, t: nat): nat { if t in asked then asked[t] else 0 }
  function ToGo(todo: map<nat, nat>, t: nat): nat { if t in todo then todo[t] else 0 }

  function Taken(cs: seq<Consumed>): seq<byte> {
    if cs == [] then [] else
    var last := cs[|cs| - 1];
    Taken(cs[..|cs| - 1]) + if last.taken <= |last.contents| then last.contents[..last.taken] else []
  }

  function Contents(cs: seq<Consumed>): seq<byte> {
    if cs == [] then [] else Contents(cs[..|cs| - 1]) + cs[|cs| - 1].contents
  }

  ghost predicate Sizes(p: Rec) {
    && 0 < p.ring.size == |p.one| == |p.two| == |p.given|
    && p.ring.used <= p.ring.size
    && p.dmaPos < p.ring.size
  }

  ghost predicate ChunkInv(copying: map<nat, R.Chunk>, size: nat) {
    forall t | t in copying :: copying[t].off + copying[t].len <= size
  }

  /** Every thread has been given what it has asked for, apart from what is still to go. */
  ghost predicate AskedInv(got: map<nat, seq<byte>>, todo: map<nat, nat>, asked: map<nat, nat>) {
    forall t: nat :: |Got(got, t)| + ToGo(todo, t) == Asked(asked, t)
  }

  /** What holds whatever the timing. */
  ghost predicate Ledger(p: Rec) {
    && Sizes(p)
    && ChunkInv(p.ring.copying, p.ring.size)
    && AskedInv(p.got, p.ring.todo, p.asked)
  }

  /** The chunk that t has reserved and not copied yet, as it is in memory now. */
  function Coming(one: seq<byte>, two: seq<byte>, copying: map<nat, R.Chunk>, t: nat): seq<byte> {
    if t !in copying then [] else
    var c := copying[t];
    var half := if c.half.One? then one else two;
    if c.off + c.len <= |half| then half[c.off..c.off + c.len] else []
  }

  /** t's bytes are those of its part of the stream, apart from spoilt ones. */
  ghost predicate Right(bs: seq<byte>, part: seq<byte>, t: nat, spoilt: set<(nat, nat)>) {
    |bs| == |part| && forall k: nat | k < |bs| && (t, k) !in spoilt :: bs[k] == part[k]
  }

  /** Every reader has been given, or is copying, its part of the stream. */
  ghost predicate ReaderInv(stream: seq<(nat, byte)>, got: map<nat, seq<byte>>, one: seq<byte>, two: seq<byte>,
                            copying: map<nat, R.Chunk>, spoilt: set<(nat, nat)>) {
    forall t: nat :: Right(Got(got, t) + Coming(one, two, copying, t), Project(stream, t), t, spoilt)
  }

  /** The stream is the front part of each half in turn, apart from overtaken bytes. */
  ghost predicate StreamInv(stream: seq<(nat, byte)>, consumed: seq<Consumed>, given: seq<byte>, used: nat,
                            overtaken: set<nat>) {
    && used <= |given|
    && |stream| == |Taken(consumed) + given[..used]|
    && (forall k | k in overtaken :: k < |stream|)
    && forall k: nat | k < |stream| && k !in overtaken :: stream[k].1 == (Taken(consumed) + given[..used])[k]
  }

  /** The back half is as it was given to the readers, apart from what the DMA has stored there since. */
  ghost predicate GivenInv(back: seq<byte>, given: seq<byte>, over: set<nat>) {
    |back| == |given| && forall i: nat | i < |back| && i !in over :: back[i] == given[i]
  }

  /** Where the DMA is, what it has overwritten of the back half, and that the halves given to the
      readers, after an initial silent one, are what was recorded. */
  ghost predicate DmaInv(half: R.Half, pos: nat, unserved: bool, cur: R.Half, consumed: seq<Consumed>, given: seq<byte>,
                         over: set<nat>, back: seq<byte>, front: seq<byte>, captured: seq<byte>, size: nat) {
    && |back| == |front| == size && pos < size
    && half == (if unserved then cur else R.Other(cur))
    && (forall i | i in over :: unserved && i < pos)
    && Zeros(size) + captured == Contents(consumed) + given + (if unserved then front + back[..pos] else front[..pos])
  }

  ghost predicate Readers(p: Rec) { ReaderInv(p.stream, p.got, p.one, p.two, p.ring.copying, p.spoilt) }

  ghost predicate Stream(p: Rec) {
    StreamInv(p.stream, p.consumed, p.given, p.ring.used, p.overtaken) && GivenInv(Back(p), p.given, p.over)
  }

  ghost predicate Dma(p: Rec) {
    DmaInv(p.dmaHalf, p.dmaPos, p.unserved, p.ring.cur, p.consumed, p.given, p.over, Back(p), Front(p), p.captured,
           p.ring.size)
  }

  ghost predicate Inv(p: Rec) {
    R.Inv(p.ring) && Ledger(p) && Readers(p) && Stream(p) && (!p.astray ==> Dma(p))
  }

  // One step

  lemma RingStep(p: Rec, s: Step)
    requires R.Inv(p.ring) && Enabled(p, s)
    ensures R.Inv(Apply(p, s).ring)
  {
    match s
    case Begin(t, n) => R.InvStep(p.ring, R.Begin(t, ToRead(n)));
    case Reserve(t) => R.InvStep(p.ring, R.Reserve(t));
    case Copy(t) => R.InvStep(p.ring, R.Copy(t));
    case End(t) => R.InvStep(p.ring, R.End(t));
    case Quiet(r) => R.InvStep(p.ring, r);
    case Swap => R.InvStep(p.ring, R.HSwap);
    case Leave => R.InvStep(p.ring, R.HLeave);
    case Capture(b) => CaptureFrame(p, b);
  }

  /** What the ring's invariant says about the step that is about to be made. */
  ghost predicate Facts(p: Rec, s: Step)
    requires Enabled(p, s)
  {
    match s
    case Reserve(t) => t !in p.ring.copying && p.ring.used + p.ring.lock.phase.n <= p.ring.size
    case _ => true
  }

  lemma StepFacts(p: Rec, s: Step)
    requires R.Inv(p.ring) && Enabled(p, s)
    ensures Facts(p, s)
  {
  }

  lemma BeginStep(p: Rec, t: nat, n: nat)
    requires Ledger(p) && Enabled(p, Begin(t, n))
    ensures Ledger(DoBegin(p, t, n))
    ensures (Readers(p) ==> Readers(DoBegin(p, t, n))) && (Dma(p) ==> Dma(DoBegin(p, t, n)))
    ensures Stream(p) ==> Stream(DoBegin(p, t, n))
  {
    var q := DoBegin(p, t, n);
    forall u: nat ensures |Got(q.got, u)| + ToGo(q.ring.todo, u) == Asked(q.asked, u) {
      assert |Got(p.got, u)| + ToGo(p.ring.todo, u) == Asked(p.asked, u);
    }
  }

  lemma EndStep(p: Rec, t: nat)
    requires Ledger(p) && Enabled(p, End(t))
    ensures Ledger(DoEnd(p, t))
    ensures (Readers(p) ==> Readers(DoEnd(p, t))) && (Dma(p) ==> Dma(DoEnd(p, t)))
            && (Stream(p) ==> Stream(DoEnd(p, t)))
  {
    var q := DoEnd(p, t);
    forall u: nat ensures |Got(q.got, u)| + ToGo(q.ring.todo, u) == Asked(q.asked, u) {
      assert |Got(p.got, u)| + ToGo(p.ring.todo, u) == Asked(p.asked, u);
    }
  }

  lemma QuietStep(p: Rec, r: R.Step)
    requires Ledger(p) && CanQuiet(p, r)
    ensures Ledger(DoQuiet(p, r))
    ensures (Readers(p) ==> Readers(DoQuiet(p, r))) && (Dma(p) ==> Dma(DoQuiet(p, r)))
    ensures Stream(p) ==> Stream(DoQuiet(p, r))
  {
    R.QuietFrame(p.ring, r);
  }

  lemma LeaveStep(p: Rec)
    requires Ledger(p) && Enabled(p, Leave)
    ensures Ledger(DoLeave(p))
    ensures (Readers(p) ==> Readers(DoLeave(p))) && (Dma(p) ==> Dma(DoLeave(p))) && (Stream(p) ==> Stream(DoLeave(p)))
  {
  }

  // Reserve

  lemma ReserveFrame(p: Rec, t: nat)
    requires CanReserve(p, t)
    ensures var q, n := DoReserve(p, t), p.ring.lock.phase.n;
            && q == p.(ring := q.ring, stream := p.stream + Tag(t, Back(p)[p.ring.used..p.ring.used + n]),
                       overtaken := p.overtaken + TooLate(|p.stream|, p.ring.used, n, p.over))
            && q.ring.used == p.ring.used + n && q.ring.lock.Free? && q.ring.todo == p.ring.todo
            && q.ring.copying == p.ring.copying[t := R.Chunk(t, p.ring.cur, p.ring.used, n)]
            && q.ring.size == p.ring.size && q.ring.cur == p.ring.cur
  {
  }

  lemma ReserveStep(p: Rec, t: nat)
    requires Ledger(p) && CanReserve(p, t) && Facts(p, Reserve(t))
    ensures Ledger(DoReserve(p, t)) && (Dma(p) ==> Dma(DoReserve(p, t)))
  {
    ReserveFrame(p, t);
  }

  lemma ReserveReaders(p: Rec, t: nat)
    requires Ledger(p) && Readers(p) && CanReserve(p, t) && Facts(p, Reserve(t))
    ensures Readers(DoReserve(p, t))
  {
    var q, n := DoReserve(p, t), p.ring.lock.phase.n;
    ReserveFrame(p, t);
    var bs := Back(p)[p.ring.used..p.ring.used + n];
    ReserveReader(p.stream, p.got, p.one, p.two, p.ring.copying, p.spoilt, t, R.Chunk(t, p.ring.cur, p.ring.used, n),
                  bs, q.stream, q.ring.copying);
  }

  lemma ReserveReader(stream: seq<(nat, byte)>, got: map<nat, seq<byte>>, one: seq<byte>, two: seq<byte>,
                      copying: map<nat, R.Chunk>, spoilt: set<(nat, nat)>, t: nat, c: R.Chunk, bs: seq<byte>,
                      stream': seq<(nat, byte)>, copying': map<nat, R.Chunk>)
    requires ReaderInv(stream, got, one, two, copying, spoilt) && t !in copying && stream' == stream + Tag(t, bs)
    requires copying' == copying[t := c] && Coming(one, two, copying', t) == bs
    ensures ReaderInv(stream', got, one, two, copying', spoilt)
  {
    forall u: nat ensures Right(Got(got, u) + Coming(one, two, copying', u), Project(stream', u), u, spoilt) {
      assert Right(Got(got, u) + Coming(one, two, copying, u), Project(stream, u), u, spoilt);
      ProjectTag(stream, t, bs, u);
      OneMore(Got(got, u), Coming(one, two, copying, u), Coming(one, two, copying', u), bs, u == t);
      RightGrows(Got(got, u) + Coming(one, two, copying, u), Project(stream, u), u, spoilt, if u == t then bs else []);
    }
  }

  lemma RightGrows(bs: seq<byte>, part: seq<byte>, t: nat, spoilt: set<(nat, nat)>, more: seq<byte>)
    requires Right(bs, part, t, spoilt)
    ensures Right(bs + more, part + more, t, spoilt)
  {
  }

  lemma OneMore(got: seq<byte>, coming: seq<byte>, coming': seq<byte>, bs: seq<byte>, mine: bool)
    requires if mine then coming == [] && coming' == bs else coming' == coming
    ensures got + coming' == got + coming + if mine then bs else []
  {
  }

  lemma ReserveStream(p: Rec, t: nat)
    requires Ledger(p) && Stream(p) && CanReserve(p, t) && Facts(p, Reserve(t))
    ensures Stream(DoReserve(p, t))
  {
    var q, n := DoReserve(p, t), p.ring.lock.phase.n;
    ReserveFrame(p, t);
    MoreTaken(p.stream, p.consumed, p.given, p.ring.used, p.overtaken, n, Back(p), p.over, t, q.stream, q.overtaken);
  }

  lemma MoreTaken(stream: seq<(nat, byte)>, consumed: seq<Consumed>, given: seq<byte>, used: nat, overtaken: set<nat>,
                  n: nat, back: seq<byte>, over: set<nat>, t: nat, stream': seq<(nat, byte)>, overtaken': set<nat>)
    requires StreamInv(stream, consumed, given, used, overtaken) && GivenInv(back, given, over) && used + n <= |given|
    requires stream' == stream + Tag(t, back[used..used + n])
    requires overtaken' == overtaken + TooLate(|stream|, used, n, over)
    ensures StreamInv(stream', consumed, given, used + n, overtaken')
  {
    var done, done' := Taken(consumed) + given[..used], Taken(consumed) + given[..used + n];
    assert done' == done + given[used..used + n];
    forall k: nat | k < |stream'| && k !in overtaken' ensures stream'[k].1 == done'[k] {
      if k < |stream| {
        assert k !in overtaken;
      } else {
        assert !IsOver(k, |stream|, used, over);
      }
    }
  }

  // Copy

  lemma CopyFrame(p: Rec, t: nat)
    requires CanCopy(p, t)
    ensures var q, c := DoCopy(p, t), p.ring.copying[t];
            && q == p.(ring := q.ring, got := p.got[t := Got(p.got, t) + Buffer(p, c.half)[c.off..c.off + c.len]])
            && q.ring == p.ring.(todo := p.ring.todo[t := p.ring.todo[t] - c.len], copying := p.ring.copying - {t})
  {
  }

  lemma CopyStep(p: Rec, t: nat)
    requires Ledger(p) && CanCopy(p, t)
    ensures Ledger(DoCopy(p, t)) && (Dma(p) ==> Dma(DoCopy(p, t))) && (Stream(p) ==> Stream(DoCopy(p, t)))
  {
    var q := DoCopy(p, t);
    CopyFrame(p, t);
    forall u: nat ensures |Got(q.got, u)| + ToGo(q.ring.todo, u) == Asked(q.asked, u) {
      assert |Got(p.got, u)| + ToGo(p.ring.todo, u) == Asked(p.asked, u);
    }
  }

  lemma CopyReaders(p: Rec, t: nat)
    requires Sizes(p) && Readers(p) && CanCopy(p, t)
    ensures Readers(DoCopy(p, t))
  {
    var q := DoCopy(p, t);
    CopyFrame(p, t);
    CopyReader(p.stream, p.got, p.one, p.two, p.ring.copying, p.spoilt, t, q.got, q.ring.copying);
  }

  lemma CopyReader(stream: seq<(nat, byte)>, got: map<nat, seq<byte>>, one: seq<byte>, two: seq<byte>,
                   copying: map<nat, R.Chunk>, spoilt: set<(nat, nat)>, t: nat, got': map<nat, seq<byte>>,
                   copying': map<nat, R.Chunk>)
    requires ReaderInv(stream, got, one, two, copying, spoilt) && t in copying && copying' == copying - {t}
    requires got' == got[t := Got(got, t) + Coming(one, two, copying, t)]
    ensures ReaderInv(stream, got', one, two, copying', spoilt)
  {
    forall u: nat ensures Right(Got(got', u) + Coming(one, two, copying', u), Project(stream, u), u, spoilt) {
      hide Right;
      assert Right(Got(got, u) + Coming(one, two, copying, u), Project(stream, u), u, spoilt);
      OneLess(Got(got, u), Coming(one, two, copying, u), Got(got', u), Coming(one, two, copying', u), u == t);
    }
  }

  lemma OneLess(got: seq<byte>, coming: seq<byte>, got': seq<byte>, coming': seq<byte>, mine: bool)
    requires if mine then got' == got + coming && coming' == [] else got' == got && coming' == coming
    ensures got' + coming' == got + coming
  {
  }

  // Swap

  lemma SwapFrame(p: Rec)
    requires CanSwap(p)
    ensures var q := DoSwap(p);
            && q == p.(ring := q.ring, unserved := false, consumed := p.consumed + [Consumed(p.given, p.ring.used)],
                       given := Front(p), over := {}, astray := p.astray || !p.unserved)
            && Back(q) == Front(p) && Front(q) == Back(p) && q.ring.cur == R.Other(p.ring.cur)
            && q.ring.used == 0 && q.ring.size == p.ring.size && q.ring.lock == R.Handler(R.Swapped)
            && q.ring.copying == p.ring.copying && q.ring.todo == p.ring.todo
  {
  }

  lemma SwapStep(p: Rec)
    requires Ledger(p) && CanSwap(p)
    ensures Ledger(DoSwap(p)) && (Readers(p) ==> Readers(DoSwap(p)))
  {
    SwapFrame(p);
  }

  lemma SwapStream(p: Rec)
    requires Stream(p) && CanSwap(p)
    ensures Stream(DoSwap(p))
  {
    SwapFrame(p);
    NextHalf(p.stream, p.consumed, p.given, p.ring.used, p.overtaken, DoSwap(p).consumed, Front(p));
  }

  lemma NextHalf(stream: seq<(nat, byte)>, consumed: seq<Consumed>, given: seq<byte>, used: nat, overtaken: set<nat>,
                 consumed': seq<Consumed>, front: seq<byte>)
    requires StreamInv(stream, consumed, given, used, overtaken) && consumed' == consumed + [Consumed(given, used)]
    ensures StreamInv(stream, consumed', front, 0, overtaken)
  {
    assert consumed'[..|consumed|] == consumed;
    assert Taken(consumed') + front[..0] == Taken(consumed) + given[..used];
  }

  lemma SwapDma(p: Rec)
    requires Dma(p) && CanSwap(p) && p.unserved
    ensures Dma(DoSwap(p))
  {
    SwapFrame(p);
    NextGiven(p.dmaHalf, p.dmaPos, p.ring.cur, p.consumed, p.given, p.over, Back(p), Front(p), p.captured, p.ring.size,
              p.ring.used, DoSwap(p).consumed);
  }

  lemma NextGiven(half: R.Half, pos: nat, cur: R.Half, consumed: seq<Consumed>, given: seq<byte>, over: set<nat>,
                  back: seq<byte>, front: seq<byte>, captured: seq<byte>, size: nat, used: nat,
                  consumed': seq<Consumed>)
    requires DmaInv(half, pos, true, cur, consumed, given, over, back, front, captured, size)
    requires consumed' == consumed + [Consumed(given, used)]
    ensures DmaInv(half, pos, false, R.Other(cur), consumed', front, {}, front, back, captured, size)
  {
    assert consumed'[..|consumed|] == consumed;
    assert Contents(consumed') == Contents(consumed) + given;
    assert Contents(consumed) + given + (front + back[..pos]) == Contents(consumed) + given + front + back[..pos];
  }

  // Capture

  lemma AdvancedFrame(p: Rec)
    ensures var q := Advanced(p);
            && q == p.(dmaHalf := q.dmaHalf, dmaPos := q.dmaPos, unserved := q.unserved, astray := q.astray)
            && (q.dmaPos < p.ring.size || p.ring.size == 0)
            && q.dmaPos == (if p.dmaPos + 1 < p.ring.size then p.dmaPos + 1 else 0)
            && q.dmaHalf == (if p.dmaPos + 1 < p.ring.size then p.dmaHalf else R.Other(p.dmaHalf))
            && q.unserved == (p.unserved || p.dmaPos + 1 >= p.ring.size)
            && q.astray == (p.astray || (p.unserved && p.dmaPos + 1 >= p.ring.size))
  {
  }

  lemma StoredFrame(p: Rec, b: byte)
    requires CanCapture(p)
    ensures var q := Stored(p, b);
            && q == p.(one := q.one, two := q.two)
            && q.one == (if p.dmaHalf.One? then p.one[p.dmaPos := b] else p.one)
            && q.two == (if p.dmaHalf.One? then p.two else p.two[p.dmaPos := b])
  {
  }

  lemma CaptureFrame(p: Rec, b: byte)
    requires CanCapture(p)
    ensures var q := DoCapture(p, b);
            && q == p.(one := q.one, two := q.two, captured := p.captured + [b], dmaHalf := q.dmaHalf,
                       dmaPos := q.dmaPos, unserved := q.unserved, over := q.over, spoilt := q.spoilt,
                       astray := q.astray)
            && (q.dmaPos < p.ring.size || p.ring.size == 0)
            && q.dmaPos == (if p.dmaPos + 1 < p.ring.size then p.dmaPos + 1 else 0)
            && q.dmaHalf == (if p.dmaPos + 1 < p.ring.size then p.dmaHalf else R.Other(p.dmaHalf))
            && q.unserved == (p.unserved || p.dmaPos + 1 >= p.ring.size)
            && q.astray == (p.astray || (p.unserved && p.dmaPos + 1 >= p.ring.size))
            && q.one == (if p.dmaHalf.One? then p.one[p.dmaPos := b] else p.one)
            && q.two == (if p.dmaHalf.One? then p.two else p.two[p.dmaPos := b])
            && q.spoilt == p.spoilt + Hit(p.ring.copying, p.got, p.dmaHalf, p.dmaPos)
            && q.over == p.over + (if p.dmaHalf == p.ring.cur then {p.dmaPos} else {})
  {
    StoredFrame(p, b);
    AdvancedFrame(Noted(Stored(p, b), b));
  }

  lemma CaptureStep(p: Rec, b: byte)
    requires Ledger(p) && CanCapture(p)
    ensures Ledger(DoCapture(p, b))
  {
    CaptureFrame(p, b);
  }

  lemma CaptureStream(p: Rec, b: byte)
    requires Sizes(p) && Stream(p) && CanCapture(p)
    ensures Stream(DoCapture(p, b))
  {
    CaptureFrame(p, b);
  }

  lemma CaptureReaders(p: Rec, b: byte)
    requires Sizes(p) && Readers(p) && CanCapture(p)
    ensures Readers(DoCapture(p, b))
  {
    var q := DoCapture(p, b);
    CaptureFrame(p, b);
    StoreReaders(p.stream, p.got, p.one, p.two, p.ring.copying, p.spoilt, p.dmaHalf, p.dmaPos, q.one, q.two, b,
                 q.spoilt);
  }

  /** Half h has b in place i now. */
  ghost predicate StoredIn(h: R.Half, i: nat, one: seq<byte>, two: seq<byte>, b: byte, one': seq<byte>,
                           two': seq<byte>) {
    && i < |if h.One? then one else two|
    && one' == (if h.One? then one[i := b] else one)
    && two' == (if h.One? then two else two[i := b])
  }

  lemma StoreReaders(stream: seq<(nat, byte)>, got: map<nat, seq<byte>>, one: seq<byte>, two: seq<byte>,
                     copying: map<nat, R.Chunk>, spoilt: set<(nat, nat)>, half: R.Half, pos: nat,
                     one': seq<byte>, two': seq<byte>, b: byte, spoilt': set<(nat, nat)>)
    requires ReaderInv(stream, got, one, two, copying, spoilt) && StoredIn(half, pos, one, two, b, one', two')
    requires spoilt' == spoilt + Hit(copying, got, half, pos)
    ensures ReaderInv(stream, got, one', two', copying, spoilt')
  {
    forall t: nat ensures Right(Got(got, t) + Coming(one', two', copying, t), Project(stream, t), t, spoilt') {
      StoreReader(Project(stream, t), got, one, two, copying, spoilt, half, pos, one', two', b, spoilt', t);
    }
  }

  lemma StoreReader(part: seq<byte>, got: map<nat, seq<byte>>, one: seq<byte>, two: seq<byte>,
                    copying: map<nat, R.Chunk>, spoilt: set<(nat, nat)>, half: R.Half, pos: nat,
                    one': seq<byte>, two': seq<byte>, b: byte, spoilt': set<(nat, nat)>, t: nat)
    requires Right(Got(got, t) + Coming(one, two, copying, t), part, t, spoilt)
    requires StoredIn(half, pos, one, two, b, one', two') && spoilt' == spoilt + Hit(copying, got, half, pos)
    ensures Right(Got(got, t) + Coming(one', two', copying, t), part, t, spoilt')
  {
    if t in copying && copying[t].half == half && R.Within(copying[t], pos) {
      HitHas(copying, got, half, pos, t);
      ComingHit(one, two, copying, t, half, pos, one', two', b);
      StillRight(Got(got, t), Coming(one, two, copying, t), Coming(one', two', copying, t), pos - copying[t].off,
                 part, t, spoilt, spoilt');
    } else {
      ComingApart(one, two, copying, t, half, pos, one', two', b);
    }
  }

  lemma HitHas(copying: map<nat, R.Chunk>, got: map<nat, seq<byte>>, h: R.Half, i: nat, t: nat)
    requires t in copying && copying[t].half == h && R.Within(copying[t], i)
    ensures (t, |Got(got, t)| + i - copying[t].off) in Hit(copying, got, h, i)
  {
  }

  /** One byte more is wrong, and known to be. */
  lemma StillRight(got: seq<byte>, coming: seq<byte>, coming': seq<byte>, i: nat, part: seq<byte>, t: nat,
                   spoilt: set<(nat, nat)>, spoilt': set<(nat, nat)>)
    requires Right(got + coming, part, t, spoilt) && spoilt <= spoilt' && (t, |got| + i) in spoilt'
    requires |coming'| == |coming| && forall j | 0 <= j < |coming| && j != i :: coming'[j] == coming[j]
    ensures Right(got + coming', part, t, spoilt')
  {
    forall k: nat | k < |got + coming'| && (t, k) !in spoilt' ensures (got + coming')[k] == part[k] {
      assert (got + coming)[k] == part[k];
    }
  }

  lemma ComingHit(one: seq<byte>, two: seq<byte>, copying: map<nat, R.Chunk>, t: nat, half: R.Half, pos: nat,
                  one': seq<byte>, two': seq<byte>, b: byte)
    requires t in copying && StoredIn(half, pos, one, two, b, one', two')
    requires copying[t].half == half && R.Within(copying[t], pos)
    ensures var coming, coming' := Coming(one, two, copying, t), Coming(one', two', copying, t);
            && |coming'| == |coming|
            && forall j | 0 <= j < |coming| && j != pos - copying[t].off :: coming'[j] == coming[j]
  {
  }

  lemma ComingApart(one: seq<byte>, two: seq<byte>, copying: map<nat, R.Chunk>, t: nat, half: R.Half, pos: nat,
                    one': seq<byte>, two': seq<byte>, b: byte)
    requires StoredIn(half, pos, one, two, b, one', two')
    requires t in copying ==> !(copying[t].half == half && R.Within(copying[t], pos))
    ensures Coming(one', two', copying, t) == Coming(one, two, copying, t)
  {
  }

  lemma CaptureDma(p: Rec, b: byte)
    requires Sizes(p) && Dma(p) && CanCapture(p) && !DoCapture(p, b).astray
    ensures Dma(DoCapture(p, b))
  {
    var q := DoCapture(p, b);
    CaptureFrame(p, b);
    StoreOne(p.dmaHalf, p.dmaPos, p.unserved, p.ring.cur, p.consumed, p.given, p.over, Back(p), Front(p), p.captured,
             p.ring.size, b, Back(q), Front(q), q.captured, q.over);
  }

  lemma StoreOne(half: R.Half, pos: nat, unserved: bool, cur: R.Half, consumed: seq<Consumed>, given: seq<byte>,
                 over: set<nat>, back: seq<byte>, front: seq<byte>, captured: seq<byte>, size: nat, b: byte,
                 back': seq<byte>, front': seq<byte>, captured': seq<byte>, over': set<nat>)
    requires DmaInv(half, pos, unserved, cur, consumed, given, over, back, front, captured, size)
    requires unserved ==> pos + 1 < size && back' == back[pos := b] && front' == front && over' == over + {pos}
    requires !unserved ==> back' == back && front' == front[pos := b] && over' == over
    requires captured' == captured + [b]
    ensures pos + 1 < size ==>
              DmaInv(half, pos + 1, unserved, cur, consumed, given, over', back', front', captured', size)
    ensures pos + 1 == size ==>
              DmaInv(R.Other(half), 0, true, cur, consumed, given, over', back', front', captured', size)
  {
    var done := Contents(consumed) + given;
    if unserved {
      assert back'[..pos + 1] == back[..pos] + [b];
      assert done + (front + back[..pos]) + [b] == done + (front + (back[..pos] + [b]));
    } else {
      assert front'[..pos + 1] == front[..pos] + [b];
      assert done + front[..pos] + [b] == done + (front[..pos] + [b]);
      if pos + 1 == size {
        assert front'[..size] == front' && front' + back'[..0] == front';
      }
    }
    assert Zeros(size) + (captured + [b]) == Zeros(size) + captured + [b];
  }

  // All steps

  lemma LedgerStep(p: Rec, s: Step)
    requires Ledger(p) && Enabled(p, s) && Facts(p, s)
    ensures Ledger(Apply(p, s))
  {
    match s
    case Begin(t, n) => BeginStep(p, t, n);
    case Reserve(t) => ReserveStep(p, t);
    case Copy(t) => CopyStep(p, t);
    case End(t) => EndStep(p, t);
    case Quiet(r) => QuietStep(p, r);
    case Swap => SwapStep(p);
    case Leave => LeaveStep(p);
    case Capture(b) => CaptureStep(p, b);
  }

  lemma ReadersStep(p: Rec, s: Step)
    requires Ledger(p) && Readers(p) && Enabled(p, s) && Facts(p, s)
    ensures Readers(Apply(p, s))
  {
    match s
    case Begin(t, n) => BeginStep(p, t, n);
    case Reserve(t) => ReserveReaders(p, t);
    case Copy(t) => CopyReaders(p, t);
    case End(t) => EndStep(p, t);
    case Quiet(r) => QuietStep(p, r);
    case Swap => SwapStep(p);
    case Leave => LeaveStep(p);
    case Capture(b) => CaptureReaders(p, b);
  }

  lemma DmaStep(p: Rec, s: Step)
    requires Ledger(p) && Dma(p) && Enabled(p, s) && Facts(p, s) && !Apply(p, s).astray
    ensures Dma(Apply(p, s))
  {
    match s
    case Begin(t, n) => BeginStep(p, t, n);
    case Reserve(t) => ReserveStep(p, t);
    case Copy(t) => CopyStep(p, t);
    case End(t) => EndStep(p, t);
    case Quiet(r) => QuietStep(p, r);
    case Swap => SwapDma(p);
    case Leave => LeaveStep(p);
    case Capture(b) => CaptureDma(p, b);
  }

  lemma StreamStep(p: Rec, s: Step)
    requires Ledger(p) && Stream(p) && Enabled(p, s) && Facts(p, s)
    ensures Stream(Apply(p, s))
  {
    match s
    case Begin(t, n) => BeginStep(p, t, n);
    case Reserve(t) => ReserveStream(p, t);
    case Copy(t) => CopyStep(p, t);
    case End(t) => EndStep(p, t);
    case Quiet(r) => QuietStep(p, r);
    case Swap => SwapStream(p);
    case Leave => LeaveStep(p);
    case Capture(b) => CaptureStream(p, b);
  }

  /** What has gone astray once stays so. */
  lemma AstrayStays(p: Rec, s: Step)
    requires Enabled(p, s) && p.astray
    ensures Apply(p, s).astray
  {
    match s
    case Copy(t) => CopyFrame(p, t);
    case Swap => SwapFrame(p);
    case Capture(b) => CaptureFrame(p, b);
    case _ =>
  }

  lemma SizeStays(p: Rec, s: Step)
    requires Enabled(p, s)
    ensures Apply(p, s).ring.size == p.ring.size
  {
    match s
    case Reserve(t) => ReserveFrame(p, t);
    case Copy(t) => CopyFrame(p, t);
    case Quiet(r) => R.QuietFrame(p.ring, r);
    case Swap => SwapFrame(p);
    case Capture(b) => CaptureFrame(p, b);
    case _ =>
  }

  lemma {:induction false} SizeRun(p: Rec, steps: seq<Step>)
    requires Exec(Next, p, steps).Some?
    ensures Exec(Next, p, steps).value.ring.size == p.ring.size
  {
    if steps != [] {
      SizeRun(p, steps[..|steps| - 1]);
      SizeStays(Exec(Next, p, steps[..|steps| - 1]).value, steps[|steps| - 1]);
    }
  }

  lemma {:induction false} InvRun(p: Rec, steps: seq<Step>)
    requires Inv(p) && Exec(Next, p, steps).Some?
    ensures Inv(Exec(Next, p, steps).value)
  {
    if steps != [] {
      var q, s := Exec(Next, p, steps[..|steps| - 1]).value, steps[|steps| - 1];
      InvRun(p, steps[..|steps| - 1]);
      InvStep(q, s);
    }
  }

  lemma InvStep(p: Rec, s: Step)
    requires Inv(p) && Enabled(p, s)
    ensures Inv(Apply(p, s))
  {
    RingStep(p, s);
    StepFacts(p, s);
    LedgerStep(p, s);
    ReadersStep(p, s);
    StreamStep(p, s);
    if p.astray { AstrayStays(p, s); } else if !Apply(p, s).astray { DmaStep(p, s); }
  }

  lemma InitInv(size: nat)
    requires size > 0
    ensures Inv(Init(size))
  {
    var p := Init(size);
    forall t: nat
      ensures Right(Got(p.got, t) + Coming(p.one, p.two, p.ring.copying, t), Project(p.stream, t), t, p.spoilt)
    {
    }
    assert Front(p)[..0] == [] && p.given[..0] == [];
  }

  /** In every run, of any number of readers and whatever the timing:
      - each reader has been given its part of the stream of bytes reserved, apart from the chunk it is
        copying: as many bytes, in order, and each of them is the one it reserved unless the DMA stored
        over it between its reservation and its copy;
      - the stream is the front part of each of the halves given to the readers in turn, so that a byte is
        delivered at most once and in order, and only the tail of a half can be lost; each of its bytes is the
        one that was given unless the DMA stored over it before it was reserved;
      - if each interrupt has been served before the next half ended, and none that was not due, the halves
        given to the readers are, after an initial silent one, what was recorded, in order and complete,
        and of the back half the DMA has stored over no more than the first dmaPos bytes, while an interrupt
        waits. */
  lemma RecordFidelity(size: nat, steps: seq<Step>, p: Rec)
    requires size > 0 && Exec(Next, Init(size), steps) == Some(p)
    ensures ReaderInv(p.stream, p.got, p.one, p.two, p.ring.copying, p.spoilt)
    ensures forall t: nat | t !in p.ring.copying :: Right(Got(p.got, t), Project(p.stream, t), t, p.spoilt)
    ensures StreamInv(p.stream, p.consumed, p.given, p.ring.used, p.overtaken)
    ensures GivenInv(Back(p), p.given, p.over)
    ensures !p.astray ==> DmaInv(p.dmaHalf, p.dmaPos, p.unserved, p.ring.cur, p.consumed, p.given, p.over, Back(p),
                                 Front(p), p.captured, p.ring.size)
  {
    InitInv(size);
    InvRun(Init(size), steps);
    forall t: nat | t !in p.ring.copying ensures Right(Got(p.got, t), Project(p.stream, t), t, p.spoilt) {
      assert Right(Got(p.got, t) + Coming(p.one, p.two, p.ring.copying, t), Project(p.stream, t), t, p.spoilt);
      assert Got(p.got, t) + [] == Got(p.got, t);
    }
  }

  // What the histories remember

  /** The byte that the DMA stores spoils what is in flight out of that place, and nothing else, each as the k-th byte
      that its reader is given; it is over if the place is in the readers' half; and it goes astray if a half ends
      before the one before was swapped. */
  lemma CaptureRemembers(p: Rec, b: byte)
    requires CanCapture(p)
    ensures var q := DoCapture(p, b);
            && (forall t: nat, k: nat :: (t, k) in q.spoilt <==>
                  (t, k) in p.spoilt
                  || (t in p.ring.copying && p.ring.copying[t].half == p.dmaHalf
                      && p.ring.copying[t].off <= p.dmaPos < p.ring.copying[t].off + p.ring.copying[t].len
                      && k == |Got(p.got, t)| + p.dmaPos - p.ring.copying[t].off))
            && (forall i: nat :: i in q.over <==> i in p.over || (i == p.dmaPos && p.dmaHalf == p.ring.cur))
            && q.overtaken == p.overtaken
            && (q.astray <==> p.astray || (p.unserved && p.dmaPos + 1 >= p.ring.size))
  {
    var q := DoCapture(p, b);
    CaptureFrame(p, b);
    assert q.spoilt == p.spoilt + Hit(p.ring.copying, p.got, p.dmaHalf, p.dmaPos);
    forall t: nat, k: nat
      ensures (t, k) in Hit(p.ring.copying, p.got, p.dmaHalf, p.dmaPos) <==>
                t in p.ring.copying && p.ring.copying[t].half == p.dmaHalf
                && p.ring.copying[t].off <= p.dmaPos < p.ring.copying[t].off + p.ring.copying[t].len
                && k == |Got(p.got, t)| + p.dmaPos - p.ring.copying[t].off
    {
    }
  }

  /** The bytes reserved that the DMA has stored over are overtaken, and no others. */
  lemma ReserveRemembers(p: Rec, t: nat)
    requires CanReserve(p, t)
    ensures var q, n := DoReserve(p, t), p.ring.lock.phase.n;
            && (forall k: nat :: k in q.overtaken <==>
                  k in p.overtaken || (|p.stream| <= k < |p.stream| + n && p.ring.used + k - |p.stream| in p.over))
            && q.spoilt == p.spoilt && q.over == p.over && q.astray == p.astray
  {
    forall k: nat
      ensures k in TooLate(|p.stream|, p.ring.used, p.ring.lock.phase.n, p.over) <==>
                |p.stream| <= k < |p.stream| + p.ring.lock.phase.n && p.ring.used + k - |p.stream| in p.over
    {
    }
  }

  // Where the DMA and the driver are

  ghost predicate InTurn(p: Rec, k: nat) {
    && p.dmaPos < p.ring.size && |p.captured| == k * p.ring.size + p.dmaPos
    && p.dmaHalf == (if k % 2 == 0 then R.One else R.Two)
    && p.ring.cur == (if p.ring.services % 2 == 0 then R.Two else R.One)
  }

  ghost predicate SameCard(p: Rec, q: Rec) {
    && q.ring.size == p.ring.size && q.ring.cur == p.ring.cur && q.ring.services == p.ring.services
    && q.dmaHalf == p.dmaHalf && q.dmaPos == p.dmaPos && q.captured == p.captured
  }

  lemma CardFrame(p: Rec, s: Step)
    requires Enabled(p, s) && !s.Capture? && !s.Swap?
    ensures SameCard(p, Apply(p, s))
  {
    match s
    case Begin(t, n) => assert SameCard(p, DoBegin(p, t, n));
    case Reserve(t) => assert SameCard(p, DoReserve(p, t));
    case Copy(t) => CopyFrame(p, t);
    case End(t) => assert SameCard(p, DoEnd(p, t));
    case Quiet(r) => R.QuietFrame(p.ring, r);
    case Leave => assert SameCard(p, DoLeave(p));
  }

  lemma SwapInTurn(p: Rec, k: nat)
    requires InTurn(p, k) && CanSwap(p)
    ensures InTurn(DoSwap(p), k)
  {
  }

  lemma CaptureInTurn(p: Rec, k: nat, b: byte) returns (k': nat)
    requires InTurn(p, k) && CanCapture(p)
    ensures InTurn(DoCapture(p, b), k')
  {
    CaptureFrame(p, b);
    k' := if p.dmaPos + 1 < p.ring.size then k else k + 1;
    NextHalfEnds(k, p.ring.size);
  }

  lemma NextHalfEnds(k: nat, size: nat)
    ensures (k + 1) * size == k * size + size
  {
  }

  lemma StepInTurn(p: Rec, s: Step, k: nat) returns (k': nat)
    requires InTurn(p, k) && Enabled(p, s)
    ensures InTurn(Apply(p, s), k')
  {
    k' := k;
    if s.Capture? {
      k' := CaptureInTurn(p, k, s.b);
    } else if s.Swap? {
      SwapInTurn(p, k);
    } else {
      CardFrame(p, s);
    }
  }

  lemma Parity(p: Rec, k: nat)
    requires InTurn(p, k)
    ensures p.dmaHalf == p.ring.cur <==> (k + p.ring.services) % 2 == 1
  {
    Odd(k, p.ring.services);
  }

  lemma Odd(a: nat, b: nat)
    ensures (a + b) % 2 == 1 <==> a % 2 != b % 2
  {
  }

  /** In every run, whatever has gone astray: halves are recorded in turn and to the end, the k-th after exactly
      k * size bytes; interrupts swap in turn; and the half that readers read from is the one that the card
      records into if and only if the number of halves recorded and the number of interrupts served add up to an
      odd number. */
  lemma {:induction false} InStepByParity(size: nat, steps: seq<Step>, p: Rec) returns (k: nat)
    requires size > 0 && Exec(Next, Init(size), steps) == Some(p)
    ensures p.ring.size == size && InTurn(p, k)
    ensures p.dmaHalf == p.ring.cur <==> (k + p.ring.services) % 2 == 1
  {
    if steps == [] {
      k := 0;
    } else {
      var b, s := Exec(Next, Init(size), steps[..|steps| - 1]).value, steps[|steps| - 1];
      k := InStepByParity(size, steps[..|steps| - 1], b);
      SizeStays(b, s);
      k := StepInTurn(b, s, k);
    }
    Parity(p, k);
  }

  // What one call moves

  /** t is in the same call, and nothing it has been given is lost. */
  ghost predicate SameCall(p: Rec, q: Rec, t: nat) {
    t in q.ring.todo && Asked(q.asked, t) == Asked(p.asked, t) && Got(p.got, t) <= Got(q.got, t)
  }

  lemma BeginKeepsCall(p: Rec, u: nat, n: nat, t: nat)
    requires Enabled(p, Begin(u, n)) && t in p.ring.todo
    ensures SameCall(p, DoBegin(p, u, n), t)
  {
  }

  lemma EndKeepsCall(p: Rec, u: nat, t: nat)
    requires Enabled(p, End(u)) && t in p.ring.todo && t != u
    ensures SameCall(p, DoEnd(p, u), t)
  {
  }

  lemma OthersKeepCall(p: Rec, s: Step, t: nat)
    requires Enabled(p, s) && t in p.ring.todo && s != End(t)
    ensures SameCall(p, Apply(p, s), t)
  {
    match s
    case Begin(u, n) => BeginKeepsCall(p, u, n, t);
    case Reserve(u) => ReserveFrame(p, u);
    case Copy(u) => CopyFrame(p, u);
    case End(u) => EndKeepsCall(p, u, t);
    case Quiet(r) => R.QuietFrame(p.ring, r);
    case Swap => SwapFrame(p);
    case Leave => assert SameCall(p, DoLeave(p), t);
    case Capture(b) => CaptureFrame(p, b);
  }

  lemma {:induction false} CallInProgress(p: Rec, steps: seq<Step>, t: nat)
    requires t in p.ring.todo && Exec(Next, p, steps).Some? && End(t) !in steps
    ensures SameCall(p, Exec(Next, p, steps).value, t)
  {
    if steps != [] {
      CallInProgress(p, steps[..|steps| - 1], t);
      OthersKeepCall(Exec(Next, p, steps[..|steps| - 1]).value, steps[|steps| - 1], t);
    }
  }

  lemma CallBegins(p: Rec, t: nat, n: nat, p1: Rec)
    requires Inv(p) && Next(p, Begin(t, n)) == Some(p1)
    ensures Inv(p1) && t in p1.ring.todo && p1.got == p.got && Asked(p1.asked, t) == |Got(p.got, t)| + ToRead(n)
  {
    InvStep(p, Begin(t, n));
    AskedNow(p, t);
  }

  lemma CallEnds(p: Rec, t: nat, q: Rec)
    requires Inv(p) && Next(p, End(t)) == Some(q)
    ensures q.got == p.got && |Got(p.got, t)| == Asked(p.asked, t)
  {
    AskedNow(p, t);
  }

  /** A call of pcm_read, from Begin to End, with anything going on in between: it adds to what its
      caller has been given as many bytes as it was asked for, if and only if that number fits a signed
      32-bit int; and otherwise none. */
  lemma ReadMovesRequest(size: nat, before: seq<Step>, p: Rec, t: nat, n: nat, p1: Rec,
                         during: seq<Step>, p2: Rec, q: Rec)
    requires size > 0 && Exec(Next, Init(size), before) == Some(p) && Next(p, Begin(t, n)) == Some(p1)
    requires Exec(Next, p1, during) == Some(p2) && End(t) !in during && Next(p2, End(t)) == Some(q)
    ensures Got(p.got, t) <= Got(q.got, t) && |Got(q.got, t)| == |Got(p.got, t)| + if n < 0x8000_0000 then n else 0
    ensures |Got(q.got, t)| == |Got(p.got, t)| + n <==> n < 0x8000_0000
  {
    InitInv(size);
    InvRun(Init(size), before);
    CallBegins(p, t, n, p1);
    InvRun(p1, during);
    CallInProgress(p1, during, t);
    CallEnds(p2, t, q);
  }

  lemma AskedNow(p: Rec, t: nat)
    requires AskedInv(p.got, p.ring.todo, p.asked)
    ensures |Got(p.got, t)| + ToGo(p.ring.todo, t) == Asked(p.asked, t)
  {
  }

  /** Asking for two gigabytes delivers nothing. */
  lemma HugeReadMovesNothing(size: nat)
    requires size > 0
    ensures Exec(Next, Init(size), [Begin(7, 0x8000_0000), End(7)]).Some?
    ensures Exec(Next, Init(size), [Begin(7, 0x8000_0000), End(7)]).value.got == map[]
  {
    var p := Init(size);
    var p1 := DoBegin(p, 7, 0x8000_0000);
    Chain2(Next, p, Begin(7, 0x8000_0000), p1, End(7), DoEnd(p1, 7));
  }
}
