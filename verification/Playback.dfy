/**
 The playback ring with its bytes: writers, the playback interrupt handler and the DMA that
 plays the front half.  Ring supplies the control; this module adds the two halves, the
 silence bookkeeping, the data that the writers pass in, and the sound card's end of the ring.
 */
module Playback {
  import opened Runs
  import opened Bytes
  import M = CountingMutex
  import R = Ring

  /** A byte that the card has played out of the half that writers were still filling, and whether
      it had been reserved and copied by then. */
  datatype Fetched = Fetched(b: byte, settled: bool)

  /** A half as it was when the handler gave it to the DMA: the bytes accepted into it, everything
      it contained, and what the card, running ahead of the handler, had played of it already.  And
      whether no byte was in flight to it when it was opened to the writers, and when it was closed. */
  datatype Handed = Handed(bytes: seq<byte>, contents: seq<byte>, early: seq<Fetched>, clean: bool, landed: bool)

  datatype Play = Play(
    ring: R.Ring,
    one: seq<byte>, two: seq<byte>,    // wr_1, wr_2
    silence: nat,                      // wr_silence
    padded: bool, filled: bool,        // how far the handler has got with its silence
    data: map<nat, seq<byte>>,         // what each writer still has to hand over
    dmaHalf: R.Half, dmaPos: nat,      // what the DMA plays next
    unserved: bool,                    // a half has been played out and not been swapped yet
    // History
    stream: seq<(nat, byte)>,          // every byte accepted, in reservation order, with its writer
    epoch: seq<byte>,                  // those accepted since the last swap
    handed: seq<Handed>,
    early: seq<Fetched>,               // played since a half ended that has not been swapped
    output: seq<byte>,                 // what the sound card has played
    supplied: map<nat, seq<byte>>,     // what each thread has passed to its calls so far
    clean: bool,                       // no byte was in flight to the back half when it was opened
    calm: set<R.Half>,                 // halves to which no byte was in flight when they were last cleared
    astray: bool                       // interrupts and ends of halves have not come one after the other
  )

  /** pcm_open, playback part */
  function Init(size: nat): Play {
    Play(R.Init(size), Zeros(size), Zeros(size), 2 * size, false, false, map[], R.One, 0, false,
         [], [], [Handed([], Zeros(size), [], true, true)], [], [], map[], true, {R.One, R.Two}, false)
  }

  function Buffer(p: Play, h: R.Half): seq<byte> { if h.One? then p.one else p.two }

  function SetBuffer(p: Play, h: R.Half, b: seq<byte>): Play {
    if h.One? then p.(one := b) else p.(two := b)
  }

  /** The part of a request that pcm_write's loop sees: to_write is a signed 32-bit int, so a
      count of 2 GB or more is negative there and the loop does not run. */
  function ToWrite(d: seq<byte>): seq<byte> { if |d| < INT_LIMIT then d else [] }

  datatype Step =
    | Begin(t: nat, d: seq<byte>)   // pcm_write is called
    | Reserve(t: nat) | Copy(t: nat) | End(t: nat)
    | Quiet(r: R.Step)              // any other step of the ring
    | Pad                           // the handler fills up the back half
    | Swap
    | Fill                          // the handler finds nobody waiting: "enjoy the silence"
    | Leave
    | Fetch                         // the DMA plays one byte

  // What each step needs and does

  function DoBegin(p: Play, t: nat, d: seq<byte>): Play
    requires R.Enabled(p.ring, R.Begin(t, |ToWrite(d)|))
  {
    p.(ring := R.Apply(p.ring, R.Begin(t, |ToWrite(d)|)), data := p.data[t := ToWrite(d)],
       supplied := p.supplied[t := Supplied(p.supplied, t) + ToWrite(d)])
  }

  predicate CanReserve(p: Play, t: nat) {
    R.Enabled(p.ring, R.Reserve(t)) && t in p.data && p.ring.lock.phase.n <= |p.data[t]|
  }

  function DoReserve(p: Play, t: nat): Play
    requires CanReserve(p, t)
  {
    var bs := p.data[t][..p.ring.lock.phase.n];
    p.(ring := R.Apply(p.ring, R.Reserve(t)), silence := 0,
       stream := p.stream + Tag(t, bs), epoch := p.epoch + bs)
  }

  predicate CanCopy(p: Play, t: nat) {
    && R.Enabled(p.ring, R.Copy(t))
    && var c := p.ring.copying[t];
       t in p.data && c.len <= |p.data[t]| && c.off + c.len <= |Buffer(p, c.half)|
  }

  function DoCopy(p: Play, t: nat): Play
    requires CanCopy(p, t)
  {
    var c := p.ring.copying[t];
    SetBuffer(p, c.half, Splice(Buffer(p, c.half), c.off, p.data[t][..c.len]))
      .(ring := R.Apply(p.ring, R.Copy(t)), data := p.data[t := p.data[t][c.len..]])
  }

  function DoEnd(p: Play, t: nat): Play
    requires R.Enabled(p.ring, R.End(t))
  {
    p.(ring := R.Apply(p.ring, R.End(t)), data := p.data - {t})
  }

  predicate CanPad(p: Play) {
    && p.ring.lock == R.Handler(R.Entered) && !p.padded
    && p.ring.used <= p.ring.size == |Buffer(p, p.ring.cur)|
  }

  function DoPad(p: Play): Play
    requires CanPad(p)
  {
    if 0 < p.ring.used < p.ring.size
    then SetBuffer(p, p.ring.cur, Buffer(p, p.ring.cur)[..p.ring.used] + Zeros(p.ring.size - p.ring.used))
           .(padded := true)
    else p.(padded := true)
  }

  /** The back half as it is handed over. */
  function Closed(p: Play): Handed {
    Handed(p.epoch, Back(p), p.early, p.clean, R.NothingTo(p.ring.copying, p.ring.cur))
  }

  predicate CanSwap(p: Play) { R.Enabled(p.ring, R.HSwap) && p.padded }

  function DoSwap(p: Play): Play
    requires CanSwap(p)
  {
    p.(ring := R.Apply(p.ring, R.HSwap), handed := p.handed + [Closed(p)], epoch := [], early := [],
       padded := false, unserved := false, clean := R.NothingTo(p.ring.copying, R.Other(p.ring.cur)),
       astray := p.astray || !p.unserved)
  }

  function Calm(calm: set<R.Half>, cur: R.Half, copying: map<nat, R.Chunk>): set<R.Half> {
    if R.NothingTo(copying, cur) then calm + {cur} else calm - {cur}
  }

  predicate CanFill(p: Play) { p.ring.lock == R.Handler(R.Leaving(false)) && !p.filled }

  function DoFill(p: Play): Play
    requires CanFill(p)
  {
    if p.silence < 2 * p.ring.size
    then SetBuffer(p, p.ring.cur, Zeros(p.ring.size))
           .(filled := true, silence := p.silence + p.ring.size, calm := Calm(p.calm, p.ring.cur, p.ring.copying))
    else p.(filled := true)
  }

  predicate CanLeave(p: Play) {
    R.Enabled(p.ring, R.HLeave) && (p.ring.lock.at.released || p.filled)
  }

  function DoLeave(p: Play): Play
    requires CanLeave(p)
  {
    p.(ring := R.Apply(p.ring, R.HLeave), filled := false)
  }

  /** A step of the mutex or the lock, which moves no bytes. */
  predicate CanQuiet(p: Play, r: R.Step) {
    R.Quiet(r) && R.Enabled(p.ring, r)
  }

  function DoQuiet(p: Play, r: R.Step): Play
    requires CanQuiet(p, r)
  {
    p.(ring := R.Apply(p.ring, r))
  }

  predicate CanFetch(p: Play) { p.dmaPos < |Buffer(p, p.dmaHalf)| }

  /** Nothing stops the DMA: it plays on whether or not the handler has swapped. */
  function DoFetch(p: Play): Play
    requires CanFetch(p)
  {
    var b := Buffer(p, p.dmaHalf)[p.dmaPos];
    var early := if p.unserved then p.early + [Fetched(b, Settled(p, p.dmaPos))] else p.early;
    var q := p.(output := p.output + [b], early := early);
    if p.dmaPos + 1 < p.ring.size then q.(dmaPos := p.dmaPos + 1)
    else q.(dmaPos := 0, dmaHalf := R.Other(p.dmaHalf), unserved := true, astray := p.astray || p.unserved)
  }

  /** Byte i of half h is in flight. */
  predicate Awaited(copying: map<nat, R.Chunk>, h: R.Half, i: nat) {
    exists t | t in copying :: copying[t].half == h && R.Within(copying[t], i)
  }

  /** Byte i of the back half has been reserved and copied. */
  predicate Settled(p: Play, i: nat) { i < p.ring.used && !Awaited(p.ring.copying, p.ring.cur, i) }

  predicate Enabled(p: Play, s: Step) {
    match s
    case Begin(t, d) => R.Enabled(p.ring, R.Begin(t, |ToWrite(d)|))
    case Reserve(t) => CanReserve(p, t)
    case Copy(t) => CanCopy(p, t)
    case End(t) => R.Enabled(p.ring, R.End(t))
    case Quiet(r) => CanQuiet(p, r)
    case Pad => CanPad(p)
    case Swap => CanSwap(p)
    case Fill => CanFill(p)
    case Leave => CanLeave(p)
    case Fetch => CanFetch(p)
  }

  function Apply(p: Play, s: Step): Play
    requires Enabled(p, s)
  {
    match s
    case Begin(t, d) => DoBegin(p, t, d)
    case Reserve(t) => DoReserve(p, t)
    case Copy(t) => DoCopy(p, t)
    case End(t) => DoEnd(p, t)
    case Quiet(r) => DoQuiet(p, r)
    case Pad => DoPad(p)
    case Swap => DoSwap(p)
    case Fill => DoFill(p)
    case Leave => DoLeave(p)
    case Fetch => DoFetch(p)
  }

  /** Every step that is possible.  Nothing is assumed about timing, nor that the handler is called
      only when a half has ended. */
  function Next(p: Play, s: Step): Option<Play> {
    if Enabled(p, s) then Some(Apply(p, s)) else None
  }

  /** Steps of the threads that are in calls. */
  predicate OfThread(s: Step) {
    s.Reserve? || s.Copy? || s.End? || (s.Quiet? && !s.r.Begin? && !R.HandlerStep(s.r))
  }

  /** Steps other than new calls. */
  predicate NoCall(s: Step) { !s.Begin? && (s.Quiet? ==> !s.r.Begin?) }

  // Invariants, each a predicate over the few values it is about

  ghost predicate DataInv(data: map<nat, seq<byte>>, todo: map<nat, nat>) {
    && data.Keys == todo.Keys
    && (forall t | t in data :: |data[t]| == todo[t])
  }

  ghost predicate PhaseInv(lock: R.Lock, padded: bool, filled: bool) {
    && (padded ==> lock == R.Handler(R.Entered))
    && (filled ==> lock == R.Handler(R.Leaving(false)))
  }

  ghost predicate ChunkInv(copying: map<nat, R.Chunk>, data: map<nat, seq<byte>>, size: nat) {
    forall t | t in copying :: t in data && copying[t].len <= |data[t]| && copying[t].off + copying[t].len <= size
  }

  /** A chunk of thread data in flight to the back half goes to where the epoch has its bytes. */
  ghost predicate OnItsWay(c: R.Chunk, cur: R.Half, epoch: seq<byte>, d: seq<byte>) {
    && c.len <= |d|
    && (c.len > 0 && c.half == cur ==>
          c.off + c.len <= |epoch| && epoch[c.off..c.off + c.len] == d[..c.len])
  }

  /** The back half holds the bytes accepted since the last swap, apart from those in flight. */
  ghost predicate BackInv(back: seq<byte>, cur: R.Half, epoch: seq<byte>, copying: map<nat, R.Chunk>,
                          data: map<nat, seq<byte>>, padded: bool) {
    && |epoch| <= |back|
    && (forall t | t in copying :: t in data && OnItsWay(copying[t], cur, epoch, data[t]))
    && (forall i: nat | i < |epoch| :: back[i] == epoch[i] || Awaited(copying, cur, i))
    && (padded && epoch != [] ==> forall i | |epoch| <= i < |back| :: back[i] == 0)
  }

  /** A half as handed over: what was accepted, followed by silence.  A half into which
      nothing was accepted is handed over as it is. */
  ghost predicate WellPadded(h: Handed, size: nat) {
    && |h.contents| == size
    && (h.bytes != [] ==> |h.bytes| <= size && h.contents == h.bytes + Zeros(size - |h.bytes|))
  }

  /** A half is handed over right if no byte was in flight to it when it was opened and when it was
      closed. */
  ghost predicate RightInTime(h: Handed, size: nat) {
    |h.contents| == size && (h.clean && h.landed ==> WellPadded(h, size))
  }

  /** Every half handed over was right if its bytes were in time; and the front half still is what was
      handed over last, if nothing was in flight to it then. */
  ghost predicate FrontInv(front: seq<byte>, half: R.Half, copying: map<nat, R.Chunk>, handed: seq<Handed>, size: nat) {
    && handed != []
    && (forall i | 0 <= i < |handed| :: RightInTime(handed[i], size))
    && (handed[|handed| - 1].landed ==> front == handed[|handed| - 1].contents && R.NothingTo(copying, half))
  }

  function Accepted(hs: seq<Handed>): seq<byte> {
    if hs == [] then [] else Accepted(hs[..|hs| - 1]) + hs[|hs| - 1].bytes
  }

  function Supplied(supplied: map<nat, seq<byte>>, t: nat): seq<byte> {
    if t in supplied then supplied[t] else []
  }

  /** What t has passed in and not had accepted yet. */
  function Rest(data: map<nat, seq<byte>>, copying: map<nat, R.Chunk>, t: nat): seq<byte> {
    if t !in data then []
    else if t in copying && copying[t].len <= |data[t]| then data[t][copying[t].len..]
    else data[t]
  }

  ghost predicate StreamInv(stream: seq<(nat, byte)>, handed: seq<Handed>, epoch: seq<byte>) {
    Untag(stream) == Accepted(handed) + epoch
  }

  /** In the stream, each writer's bytes are what that writer has passed in, in order. */
  ghost predicate WriterInv(stream: seq<(nat, byte)>, data: map<nat, seq<byte>>, copying: map<nat, R.Chunk>,
                            supplied: map<nat, seq<byte>>) {
    forall t: nat :: Project(stream, t) + Rest(data, copying, t) == Supplied(supplied, t)
  }

  function Back(p: Play): seq<byte> { Buffer(p, p.ring.cur) }
  function Front(p: Play): seq<byte> { Buffer(p, R.Other(p.ring.cur)) }

  ghost predicate Sizes(p: Play) {
    && 0 < p.ring.size == |p.one| == |p.two|
    && |p.epoch| == p.ring.used <= p.ring.size
    && p.dmaPos < p.ring.size
    && p.handed != []
  }

  /** What holds whatever the timing: who has passed in, reserved and still to move which bytes. */
  ghost predicate Ledger(p: Play) {
    && Sizes(p)
    && DataInv(p.data, p.ring.todo)
    && PhaseInv(p.ring.lock, p.padded, p.filled)
    && ChunkInv(p.ring.copying, p.data, p.ring.size)
    && StreamInv(p.stream, p.handed, p.epoch)
    && WriterInv(p.stream, p.data, p.ring.copying, p.supplied)
  }

  /** What the two halves contain, each under its own condition. */
  ghost predicate Contents(p: Play) {
    && (p.clean ==> BackInv(Back(p), p.ring.cur, p.epoch, p.ring.copying, p.data, p.padded))
    && FrontInv(Front(p), R.Other(p.ring.cur), p.ring.copying, p.handed, p.ring.size)
  }

  ghost predicate Inv(p: Play) { R.Inv(p.ring) && Ledger(p) && Contents(p) }

  // One step

  /** Each step does to the ring what Ring says, or leaves it alone. */
  lemma RingStep(p: Play, s: Step)
    requires R.Inv(p.ring) && Enabled(p, s)
    ensures R.Inv(Apply(p, s).ring)
  {
    match s
    case Begin(t, d) => R.InvStep(p.ring, R.Begin(t, |ToWrite(d)|));
    case Reserve(t) => R.InvStep(p.ring, R.Reserve(t));
    case Copy(t) => R.InvStep(p.ring, R.Copy(t));
    case End(t) => R.InvStep(p.ring, R.End(t));
    case _ => HandlerRingStep(p, s);
  }

  lemma HandlerRingStep(p: Play, s: Step)
    requires R.Inv(p.ring) && Enabled(p, s)
    requires s.Quiet? || s.Pad? || s.Swap? || s.Fill? || s.Leave? || s.Fetch?
    ensures R.Inv(Apply(p, s).ring)
  {
    match s
    case Quiet(r) => R.InvStep(p.ring, r);
    case Swap => R.InvStep(p.ring, R.HSwap);
    case Leave => R.InvStep(p.ring, R.HLeave);
    case Pad => PadFrame(p);
    case Fill => FillFrame(p);
    case Fetch => FetchFrame(p);
  }

  lemma BeginStep(p: Play, t: nat, d: seq<byte>)
    requires Ledger(p) && Enabled(p, Begin(t, d)) && t !in p.ring.copying
    ensures Ledger(DoBegin(p, t, d))
  {
    BeginWriter(p.stream, p.data, p.ring.copying, p.supplied, t, ToWrite(d));
  }

  lemma BeginContents(p: Play, t: nat, d: seq<byte>)
    requires Contents(p) && Enabled(p, Begin(t, d)) && t !in p.ring.copying
    ensures Contents(DoBegin(p, t, d))
  {
  }

  lemma BeginWriter(stream: seq<(nat, byte)>, data: map<nat, seq<byte>>, copying: map<nat, R.Chunk>,
                    supplied: map<nat, seq<byte>>, t: nat, d: seq<byte>)
    requires WriterInv(stream, data, copying, supplied) && t !in data && t !in copying
    ensures WriterInv(stream, data[t := d], copying, supplied[t := Supplied(supplied, t) + d])
  {
    forall u: nat
      ensures Project(stream, u) + Rest(data[t := d], copying, u)
           == Supplied(supplied[t := Supplied(supplied, t) + d], u)
    {
      var done := Project(stream, u);
      assert done + Rest(data, copying, u) == Supplied(supplied, u);
      if u == t {
        assert done + [] == done;
      }
    }
  }

  lemma QuietStep(p: Play, r: R.Step)
    requires Ledger(p) && CanQuiet(p, r)
    ensures Ledger(DoQuiet(p, r)) && (Contents(p) ==> Contents(DoQuiet(p, r)))
  {
    R.QuietFrame(p.ring, r);
  }

  lemma CopyStep(p: Play, t: nat)
    requires Ledger(p) && CanCopy(p, t)
    ensures Ledger(DoCopy(p, t))
  {
    CopyFrame(p, t);
    CopyCalls(p, t);
    CopyWriter(p.stream, p.data, p.ring.copying, p.supplied, t);
  }

  lemma CopyFrame(p: Play, t: nat)
    requires CanCopy(p, t)
    ensures var q, c := DoCopy(p, t), p.ring.copying[t];
            && q == p.(one := q.one, two := q.two, ring := q.ring, data := q.data)
            && q.ring == p.ring.(todo := p.ring.todo[t := p.ring.todo[t] - c.len], copying := p.ring.copying - {t})
            && q.data == p.data[t := p.data[t][c.len..]]
            && |q.one| == |p.one| && |q.two| == |p.two|
  {
    var c := p.ring.copying[t];
    SetBufferFrame(p, c.half, Splice(Buffer(p, c.half), c.off, p.data[t][..c.len]));
  }

  lemma CopyCalls(p: Play, t: nat)
    requires CanCopy(p, t) && DataInv(p.data, p.ring.todo) && ChunkInv(p.ring.copying, p.data, p.ring.size)
    ensures var q := DoCopy(p, t);
            DataInv(q.data, q.ring.todo) && ChunkInv(q.ring.copying, q.data, q.ring.size)
  {
    CopyFrame(p, t);
  }

  lemma CopyContents(p: Play, t: nat)
    requires Sizes(p) && CanCopy(p, t) && Contents(p)
    ensures Contents(DoCopy(p, t))
  {
    CopyFrame(p, t);
    CopyFront(p, t);
    if p.clean { CopyBack(p, t); }
  }

  /** A chunk lands in its own half. */
  lemma CopyPlace(p: Play, t: nat)
    requires CanCopy(p, t)
    ensures var q, c := DoCopy(p, t), p.ring.copying[t];
            && Buffer(q, c.half) == Splice(Buffer(p, c.half), c.off, p.data[t][..c.len])
            && Buffer(q, R.Other(c.half)) == Buffer(p, R.Other(c.half))
            && (c.len == 0 ==> Buffer(q, c.half) == Buffer(p, c.half))
  {
    var c := p.ring.copying[t];
    SetBufferFrame(p, c.half, Splice(Buffer(p, c.half), c.off, p.data[t][..c.len]));
    SpliceNothing(Buffer(p, c.half), c.off);
  }

  lemma CopyFront(p: Play, t: nat)
    requires CanCopy(p, t) && FrontInv(Front(p), R.Other(p.ring.cur), p.ring.copying, p.handed, p.ring.size)
    ensures var q := DoCopy(p, t);
            FrontInv(Front(q), R.Other(p.ring.cur), q.ring.copying, p.handed, p.ring.size)
  {
    CopyPlace(p, t);
    CopyFrame(p, t);
  }

  lemma CopyBack(p: Play, t: nat)
    requires Sizes(p) && CanCopy(p, t) && BackInv(Back(p), p.ring.cur, p.epoch, p.ring.copying, p.data, p.padded)
    ensures var q := DoCopy(p, t);
            BackInv(Back(q), p.ring.cur, p.epoch, q.ring.copying, q.data, p.padded)
  {
    CopyPlace(p, t);
    CopyFrame(p, t);
    CopyLands(Back(p), p.ring.cur, p.epoch, p.ring.copying, p.data, p.padded, t, Back(DoCopy(p, t)));
  }

  lemma CopyWriter(stream: seq<(nat, byte)>, data: map<nat, seq<byte>>, copying: map<nat, R.Chunk>,
                   supplied: map<nat, seq<byte>>, t: nat)
    requires WriterInv(stream, data, copying, supplied)
    requires t in copying && t in data && copying[t].len <= |data[t]|
    ensures WriterInv(stream, data[t := data[t][copying[t].len..]], copying - {t}, supplied)
  {
    forall u: nat
      ensures Project(stream, u) + Rest(data[t := data[t][copying[t].len..]], copying - {t}, u)
           == Supplied(supplied, u)
    {
      assert Project(stream, u) + Rest(data, copying, u) == Supplied(supplied, u);
    }
  }

  lemma CopyLands(back: seq<byte>, cur: R.Half, epoch: seq<byte>, copying: map<nat, R.Chunk>,
                  data: map<nat, seq<byte>>, padded: bool, t: nat, landed: seq<byte>)
    requires BackInv(back, cur, epoch, copying, data, padded) && t in copying && t in data
    requires var c := copying[t];
             && c.len <= |data[t]|
             && if c.half == cur then c.off + c.len <= |back| && landed == Splice(back, c.off, data[t][..c.len])
                else landed == back
    ensures BackInv(landed, cur, epoch, copying - {t}, data[t := data[t][copying[t].len..]], padded)
  {
    var c := copying[t];
    assert OnItsWay(c, cur, epoch, data[t]);
    forall i: nat | i < |epoch| ensures landed[i] == epoch[i] || Awaited(copying - {t}, cur, i) {
      if c.half == cur && R.Within(c, i) {
        assert data[t][..c.len][i - c.off] == epoch[c.off..c.off + c.len][i - c.off];
      } else if Awaited(copying, cur, i) {
        var u :| u in copying && copying[u].half == cur && R.Within(copying[u], i);
        assert u in copying - {t};
      }
    }
  }

  lemma ReserveStep(p: Play, t: nat)
    requires Ledger(p) && CanReserve(p, t)
    requires t !in p.ring.copying && p.ring.used + p.ring.lock.phase.n <= p.ring.size
    ensures Ledger(DoReserve(p, t))
  {
    var q, n := DoReserve(p, t), p.ring.lock.phase.n;
    ReserveFrame(p, t);
    assert StreamInv(q.stream, q.handed, q.epoch) by {
      ReserveStream(p.stream, p.handed, p.epoch, t, p.data[t][..n]);
    }
    assert WriterInv(q.stream, q.data, q.ring.copying, q.supplied) by {
      ReserveWriter(p.stream, p.data, p.ring.copying, p.supplied, t, R.Chunk(t, p.ring.cur, p.ring.used, n));
    }
  }

  lemma ReserveContents(p: Play, t: nat)
    requires CanReserve(p, t) && Contents(p) && Sizes(p) && PhaseInv(p.ring.lock, p.padded, p.filled)
    requires t !in p.ring.copying && p.ring.used + p.ring.lock.phase.n <= p.ring.size
    ensures Contents(DoReserve(p, t))
  {
    ReserveFrame(p, t);
    if p.clean {
      ReserveBack(Back(p), p.ring.cur, p.epoch, p.ring.copying, p.data, t, p.ring.lock.phase.n);
    }
  }

  lemma ReserveFrame(p: Play, t: nat)
    requires CanReserve(p, t) && PhaseInv(p.ring.lock, p.padded, p.filled)
    ensures var q, n := DoReserve(p, t), p.ring.lock.phase.n;
            && Back(q) == Back(p) && Front(q) == Front(p) && q.handed == p.handed && q.clean == p.clean
            && q.ring.cur == p.ring.cur && q.ring.size == p.ring.size
            && q.ring.used == p.ring.used + n && q.ring.lock.Free? && !q.padded && !q.filled
            && q.ring.copying == p.ring.copying[t := R.Chunk(t, p.ring.cur, p.ring.used, n)]
            && q.stream == p.stream + Tag(t, p.data[t][..n]) && q.epoch == p.epoch + p.data[t][..n]
            && q.ring.todo == p.ring.todo
  {
  }

  lemma ReserveStream(stream: seq<(nat, byte)>, handed: seq<Handed>, epoch: seq<byte>, t: nat, bs: seq<byte>)
    requires StreamInv(stream, handed, epoch)
    ensures StreamInv(stream + Tag(t, bs), handed, epoch + bs)
  {
    UntagTag(stream, t, bs);
    assert Accepted(handed) + epoch + bs == Accepted(handed) + (epoch + bs);
  }

  lemma ReserveBack(back: seq<byte>, cur: R.Half, epoch: seq<byte>, copying: map<nat, R.Chunk>,
                    data: map<nat, seq<byte>>, t: nat, n: nat)
    requires BackInv(back, cur, epoch, copying, data, false)
    requires t in data && t !in copying && n <= |data[t]| && |epoch| + n <= |back|
    ensures BackInv(back, cur, epoch + data[t][..n], copying[t := R.Chunk(t, cur, |epoch|, n)], data, false)
  {
    var epoch' := epoch + data[t][..n];
    var copying' := copying[t := R.Chunk(t, cur, |epoch|, n)];
    forall u | u in copying' ensures u in data && OnItsWay(copying'[u], cur, epoch', data[u]) {
      if u != t {
        StillOnItsWay(copying[u], cur, epoch, data[t][..n], data[u]);
      }
    }
    forall i: nat | i < |epoch'| ensures back[i] == epoch'[i] || Awaited(copying', cur, i) {
      if i >= |epoch| {
        assert copying'[t].half == cur && R.Within(copying'[t], i);
      } else if Awaited(copying, cur, i) {
        var u :| u in copying && copying[u].half == cur && R.Within(copying[u], i);
        assert u in copying' && R.Within(copying'[u], i);
      }
    }
  }

  lemma StillOnItsWay(c: R.Chunk, cur: R.Half, epoch: seq<byte>, more: seq<byte>, d: seq<byte>)
    requires OnItsWay(c, cur, epoch, d)
    ensures OnItsWay(c, cur, epoch + more, d)
  {
    if c.len > 0 && c.half == cur {
      assert (epoch + more)[c.off..c.off + c.len] == epoch[c.off..c.off + c.len];
    }
  }

  lemma ReserveWriter(stream: seq<(nat, byte)>, data: map<nat, seq<byte>>, copying: map<nat, R.Chunk>,
                      supplied: map<nat, seq<byte>>, t: nat, c: R.Chunk)
    requires WriterInv(stream, data, copying, supplied)
    requires t in data && t !in copying && c.len <= |data[t]|
    ensures WriterInv(stream + Tag(t, data[t][..c.len]), data, copying[t := c], supplied)
  {
    var bs := data[t][..c.len];
    forall u: nat
      ensures Project(stream + Tag(t, bs), u) + Rest(data, copying[t := c], u) == Supplied(supplied, u)
    {
      assert Project(stream, u) + Rest(data, copying, u) == Supplied(supplied, u);
      ProjectTag(stream, t, bs, u);
      SplitRest(Project(stream, u), data, copying, t, c, u);
    }
  }

  /** Reserving moves bytes of the writer from the rest to the stream. */
  lemma SplitRest(done: seq<byte>, data: map<nat, seq<byte>>, copying: map<nat, R.Chunk>, t: nat, c: R.Chunk, u: nat)
    requires t in data && t !in copying && c.len <= |data[t]|
    ensures done + (if t == u then data[t][..c.len] else []) + Rest(data, copying[t := c], u)
         == done + Rest(data, copying, u)
  {
  }

  lemma EndStep(p: Play, t: nat)
    requires Ledger(p) && Enabled(p, End(t))
    ensures Ledger(DoEnd(p, t))
  {
    var q := DoEnd(p, t);
    forall u: nat
      ensures Project(q.stream, u) + Rest(q.data, q.ring.copying, u) == Supplied(q.supplied, u)
    {
      assert Project(p.stream, u) + Rest(p.data, p.ring.copying, u) == Supplied(p.supplied, u);
    }
  }

  lemma EndContents(p: Play, t: nat)
    requires Contents(p) && Enabled(p, End(t))
    ensures Contents(DoEnd(p, t))
  {
  }

  lemma SwapStep(p: Play)
    requires Ledger(p) && CanSwap(p)
    ensures Ledger(DoSwap(p))
  {
    SwapFrame(p);
    SwapStream(p.stream, p.handed, Closed(p), DoSwap(p).handed);
  }

  lemma SwapContents(p: Play)
    requires Sizes(p) && Contents(p) && ChunkInv(p.ring.copying, p.data, p.ring.size) && CanSwap(p)
    ensures Contents(DoSwap(p))
  {
    SwapFrame(p);
    var q := DoSwap(p);
    if p.clean && Closed(p).landed {
      HandOver(Closed(p), p.ring.cur, p.ring.size, p.ring.copying, p.data);
    }
    assert RightInTime(Closed(p), p.ring.size);
    if q.clean {
      OpenBack(Back(q), q.ring.cur, q.ring.copying, q.data, q.ring.size);
    }
  }

  lemma SwapFrame(p: Play)
    requires CanSwap(p)
    ensures var q := DoSwap(p);
            && Back(q) == Front(p) && Front(q) == Back(p) && q.ring.cur == R.Other(p.ring.cur)
            && q.ring.lock == R.Handler(R.Swapped) && !q.padded && !q.unserved && q.filled == p.filled
            && q.ring.used == 0 && q.epoch == [] && q.early == [] && q.ring.size == p.ring.size
            && q.handed == p.handed + [Closed(p)] && q.clean == R.NothingTo(p.ring.copying, R.Other(p.ring.cur))
            && q.ring.copying == p.ring.copying && q.ring.todo == p.ring.todo
  {
  }

  lemma SwapStream(stream: seq<(nat, byte)>, handed: seq<Handed>, h: Handed, handed': seq<Handed>)
    requires StreamInv(stream, handed, h.bytes) && handed' == handed + [h]
    ensures StreamInv(stream, handed', [])
  {
    assert handed'[..|handed|] == handed;
    assert Accepted(handed') + [] == Accepted(handed');
  }

  /** A half that is opened with nothing in flight to it holds what has been accepted: nothing. */
  lemma OpenBack(back: seq<byte>, cur: R.Half, copying: map<nat, R.Chunk>, data: map<nat, seq<byte>>, size: nat)
    requires R.NothingTo(copying, cur) && ChunkInv(copying, data, size)
    ensures BackInv(back, cur, [], copying, data, false)
  {
  }

  /** Once every byte has landed and the rest is padded, the half is what it should be. */
  lemma HandOver(h: Handed, cur: R.Half, size: nat, copying: map<nat, R.Chunk>, data: map<nat, seq<byte>>)
    requires BackInv(h.contents, cur, h.bytes, copying, data, true) && R.NothingTo(copying, cur)
    requires |h.contents| == size
    ensures WellPadded(h, size)
  {
    forall i: nat | i < |h.bytes| ensures h.contents[i] == h.bytes[i] {
      assert !Awaited(copying, cur, i);
    }
  }

  /** A chunk of bytes d, as far as half h has them already. */
  ghost predicate There(back: seq<byte>, c: R.Chunk, d: seq<byte>) {
    && c.len <= |d| && c.off + c.len <= |back|
    && back[c.off..c.off + c.len] == d[..c.len]
  }

  /** Every chunk that is in flight to the back half brings the bytes that are in its place already. */
  ghost predicate AllThere(p: Play) {
    forall t | t in p.ring.copying && t in p.data
               && p.ring.copying[t].half == p.ring.cur && p.ring.copying[t].len > 0 ::
      There(Back(p), p.ring.copying[t], p.data[t])
  }

  lemma RightIfThere(p: Play)
    requires Ledger(p) && BackInv(Back(p), p.ring.cur, p.epoch, p.ring.copying, p.data, true) && AllThere(p)
    ensures WellPadded(Closed(p), p.ring.size)
  {
    forall i: nat | i < |p.epoch| ensures Back(p)[i] == p.epoch[i] {
      if Awaited(p.ring.copying, p.ring.cur, i) {
        var t :| t in p.ring.copying && p.ring.copying[t].half == p.ring.cur && R.Within(p.ring.copying[t], i);
        AtPlace(Back(p), p.ring.copying[t], p.ring.cur, p.epoch, p.data[t], i);
      }
    }
  }

  lemma ThereIfRight(p: Play)
    requires Ledger(p) && BackInv(Back(p), p.ring.cur, p.epoch, p.ring.copying, p.data, true) && p.epoch != []
    requires WellPadded(Closed(p), p.ring.size)
    ensures AllThere(p)
  {
    forall t | t in p.ring.copying && t in p.data && p.ring.copying[t].half == p.ring.cur && p.ring.copying[t].len > 0
      ensures There(Back(p), p.ring.copying[t], p.data[t])
    {
      var c := p.ring.copying[t];
      assert OnItsWay(c, p.ring.cur, p.epoch, p.data[t]);
      assert Back(p)[c.off..c.off + c.len] == p.epoch[c.off..c.off + c.len];
    }
  }

  /** When exactly a half is handed over right that was opened with nothing in flight to it and into which
      bytes were accepted: every chunk that is in flight to it brings no other bytes than those that are in
      its place already. */
  lemma HandedRightExactly(p: Play)
    requires Inv(p) && p.clean && CanSwap(p) && p.epoch != []
    ensures WellPadded(Closed(p), p.ring.size) <==> AllThere(p)
  {
    if WellPadded(Closed(p), p.ring.size) { ThereIfRight(p); }
    if AllThere(p) { RightIfThere(p); }
  }

  lemma AtPlace(back: seq<byte>, c: R.Chunk, cur: R.Half, epoch: seq<byte>, d: seq<byte>, i: nat)
    requires OnItsWay(c, cur, epoch, d) && c.half == cur && R.Within(c, i) && There(back, c, d)
    ensures i < |epoch| && back[i] == epoch[i]
  {
    assert back[c.off..c.off + c.len][i - c.off] == epoch[c.off..c.off + c.len][i - c.off];
  }

  lemma SetBufferFrame(p: Play, h: R.Half, b: seq<byte>)
    ensures var q := SetBuffer(p, h, b);
            && q == p.(one := q.one, two := q.two)
            && Buffer(q, h) == b && Buffer(q, R.Other(h)) == Buffer(p, R.Other(h))
            && (|b| == |Buffer(p, h)| ==> |q.one| == |p.one| && |q.two| == |p.two|)
  {
  }

  lemma PadFrame(p: Play)
    requires CanPad(p)
    ensures var q := DoPad(p);
            && q == p.(one := q.one, two := q.two, padded := true)
            && Front(q) == Front(p) && |Back(q)| == |Back(p)|
            && Back(q) == if 0 < p.ring.used < p.ring.size
                          then Back(p)[..p.ring.used] + Zeros(p.ring.size - p.ring.used) else Back(p)
  {
    if 0 < p.ring.used < p.ring.size {
      SetBufferFrame(p, p.ring.cur, Back(p)[..p.ring.used] + Zeros(p.ring.size - p.ring.used));
    }
  }

  lemma PadStep(p: Play)
    requires Ledger(p) && CanPad(p)
    ensures Ledger(DoPad(p))
  {
    PadFrame(p);
  }

  lemma PadContents(p: Play)
    requires Sizes(p) && Contents(p) && CanPad(p)
    ensures Contents(DoPad(p))
  {
    PadFrame(p);
    if p.clean { PadBack(Back(p), Back(DoPad(p)), p.ring.cur, p.epoch, p.ring.copying, p.data, p.padded); }
  }

  lemma PadBack(back: seq<byte>, back': seq<byte>, cur: R.Half, epoch: seq<byte>, copying: map<nat, R.Chunk>,
                data: map<nat, seq<byte>>, padded: bool)
    requires BackInv(back, cur, epoch, copying, data, padded)
    requires back' == if 0 < |epoch| < |back| then back[..|epoch|] + Zeros(|back| - |epoch|) else back
    ensures BackInv(back', cur, epoch, copying, data, true)
  {
  }

  lemma FillFrame(p: Play)
    requires CanFill(p)
    ensures var q := DoFill(p);
            && q == p.(one := q.one, two := q.two, filled := true, silence := q.silence, calm := q.calm)
            && Front(q) == Front(p)
            && Back(q) == (if p.silence < 2 * p.ring.size then Zeros(p.ring.size) else Back(p))
            && q.silence == p.silence + (if p.silence < 2 * p.ring.size then p.ring.size else 0)
  {
    if p.silence < 2 * p.ring.size {
      SetBufferFrame(p, p.ring.cur, Zeros(p.ring.size));
    }
  }

  lemma FillStep(p: Play)
    requires Ledger(p) && CanFill(p)
    ensures Ledger(DoFill(p))
  {
    FillFrame(p);
  }

  lemma FillContents(p: Play)
    requires Sizes(p) && Contents(p) && CanFill(p) && p.ring.used == 0
    ensures Contents(DoFill(p))
  {
    FillFrame(p);
    if p.clean { FillBack(Back(p), Back(DoFill(p)), p.ring.cur, p.ring.copying, p.data, p.padded); }
  }

  lemma FillBack(back: seq<byte>, back': seq<byte>, cur: R.Half, copying: map<nat, R.Chunk>,
                 data: map<nat, seq<byte>>, padded: bool)
    requires BackInv(back, cur, [], copying, data, padded) && |back'| == |back|
    ensures BackInv(back', cur, [], copying, data, padded)
  {
  }

  lemma FetchStep(p: Play)
    requires Ledger(p) && CanFetch(p)
    ensures Ledger(DoFetch(p))
  {
    FetchFrame(p);
  }

  lemma FetchContents(p: Play)
    requires Contents(p) && CanFetch(p)
    ensures Contents(DoFetch(p))
  {
    FetchFrame(p);
  }

  lemma FetchFrame(p: Play)
    requires CanFetch(p)
    ensures var q := DoFetch(p);
            && q == p.(dmaHalf := q.dmaHalf, dmaPos := q.dmaPos, unserved := q.unserved, output := q.output,
                       early := q.early, astray := q.astray)
            && (p.unserved ==> q.unserved) && (q.dmaPos < p.ring.size || p.ring.size == 0)
            && q.output == p.output + [Buffer(p, p.dmaHalf)[p.dmaPos]]
  {
  }

  /** What the ring's invariant says about the step that is about to be made. */
  ghost predicate Facts(p: Play, s: Step)
    requires Enabled(p, s)
  {
    match s
    case Begin(t, d) => t !in p.ring.copying
    case Reserve(t) => t !in p.ring.copying && p.ring.used + p.ring.lock.phase.n <= p.ring.size
    case Fill => p.ring.used == 0
    case _ => true
  }

  lemma StepFacts(p: Play, s: Step)
    requires R.Inv(p.ring) && Enabled(p, s)
    ensures Facts(p, s)
  {
  }

  lemma LeaveStep(p: Play)
    requires Ledger(p) && CanLeave(p)
    ensures Ledger(DoLeave(p)) && (Contents(p) ==> Contents(DoLeave(p)))
  {
  }

  lemma LedgerStep(p: Play, s: Step)
    requires Ledger(p) && Enabled(p, s) && Facts(p, s)
    ensures Ledger(Apply(p, s))
  {
    match s
    case Begin(t, d) => BeginStep(p, t, d);
    case Reserve(t) => ReserveStep(p, t);
    case Copy(t) => CopyStep(p, t);
    case End(t) => EndStep(p, t);
    case Quiet(r) => QuietStep(p, r);
    case Pad => PadStep(p);
    case Swap => SwapStep(p);
    case Fill => FillStep(p);
    case Leave => LeaveStep(p);
    case Fetch => FetchStep(p);
  }

  lemma ContentsStep(p: Play, s: Step)
    requires Ledger(p) && Contents(p) && Enabled(p, s) && Facts(p, s)
    ensures Contents(Apply(p, s))
  {
    match s
    case Begin(t, d) => BeginContents(p, t, d);
    case Reserve(t) => ReserveContents(p, t);
    case Copy(t) => CopyContents(p, t);
    case End(t) => EndContents(p, t);
    case Quiet(r) => QuietStep(p, r);
    case Pad => PadContents(p);
    case Swap => SwapContents(p);
    case Fill => FillContents(p);
    case Leave => LeaveStep(p);
    case Fetch => FetchContents(p);
  }

  /** What has gone astray once stays so. */
  lemma AstrayStays(p: Play, s: Step)
    requires Enabled(p, s) && p.astray
    ensures Apply(p, s).astray
  {
    match s
    case Copy(t) => CopyFrame(p, t);
    case Pad => PadFrame(p);
    case Fill => FillFrame(p);
    case Fetch => FetchFrame(p);
    case _ =>
  }

  lemma SizeStays(p: Play, s: Step)
    requires Enabled(p, s)
    ensures Apply(p, s).ring.size == p.ring.size
  {
    match s
    case Begin(t, d) => assert DoBegin(p, t, d).ring.size == p.ring.size;
    case Reserve(t) => assert DoReserve(p, t).ring.size == p.ring.size;
    case Copy(t) => CopyFrame(p, t);
    case End(t) => assert DoEnd(p, t).ring.size == p.ring.size;
    case _ => HandlerSize(p, s);
  }

  lemma HandlerSize(p: Play, s: Step)
    requires Enabled(p, s) && !s.Begin? && !s.Reserve? && !s.Copy? && !s.End?
    ensures Apply(p, s).ring.size == p.ring.size
  {
    match s
    case Quiet(r) => R.QuietFrame(p.ring, r);
    case Pad => PadFrame(p);
    case Swap => SwapFrame(p);
    case Fill => FillFrame(p);
    case Leave => assert DoLeave(p).ring.size == p.ring.size;
    case Fetch => FetchFrame(p);
  }

  lemma {:induction false} SizeRun(p: Play, steps: seq<Step>)
    requires Exec(Next, p, steps).Some?
    ensures Exec(Next, p, steps).value.ring.size == p.ring.size
  {
    if steps != [] {
      SizeRun(p, steps[..|steps| - 1]);
      SizeStays(Exec(Next, p, steps[..|steps| - 1]).value, steps[|steps| - 1]);
    }
  }

  lemma {:induction false} InvRun(p: Play, steps: seq<Step>)
    requires Inv(p) && Exec(Next, p, steps).Some?
    ensures Inv(Exec(Next, p, steps).value)
  {
    if steps != [] {
      var q, s := Exec(Next, p, steps[..|steps| - 1]).value, steps[|steps| - 1];
      InvRun(p, steps[..|steps| - 1]);
      RingStep(q, s);
      StepFacts(q, s);
      LedgerStep(q, s);
      ContentsStep(q, s);
    }
  }

  lemma InitInv(size: nat)
    requires size > 0
    ensures Inv(Init(size))
  {
    var p := Init(size);
    assert p.handed[..0] == [];
    assert Accepted(p.handed) == Accepted(p.handed[..0]) + [];
    forall t: nat ensures Project(p.stream, t) + Rest(p.data, p.ring.copying, t) == Supplied(p.supplied, t) {
    }
  }

  /** In every run, of any number of writers and whatever the timing of writers, handler and DMA:
      - the accepted bytes of all halves handed over, in order, and those of the half being filled
        are the stream, so that nothing is lost, duplicated or reordered;
      - each writer's bytes are in the stream in the order it passed them in, and once a call
        has returned all of them are;
      - every half handed over held the bytes accepted into it followed by silence (or, if none was
        accepted, whatever it held before), unless bytes were in flight to that half when it was
        opened or when it was closed; and the front half still is the last of them, unless bytes were
        in flight to it when it was closed. */
  lemma StreamFidelity(size: nat, steps: seq<Step>, p: Play)
    requires size > 0 && Exec(Next, Init(size), steps) == Some(p)
    ensures StreamInv(p.stream, p.handed, p.epoch)
    ensures WriterInv(p.stream, p.data, p.ring.copying, p.supplied)
    ensures forall t: nat | t !in p.data :: Project(p.stream, t) == Supplied(p.supplied, t)
    ensures forall i | 0 <= i < |p.handed| && p.handed[i].clean && p.handed[i].landed :: WellPadded(p.handed[i], size)
    ensures p.handed != [] && (p.handed[|p.handed| - 1].landed ==> Front(p) == p.handed[|p.handed| - 1].contents)
  {
    InitInv(size);
    InvRun(Init(size), steps);
    SizeRun(Init(size), steps);
    forall t: nat | t !in p.data ensures Project(p.stream, t) == Supplied(p.supplied, t) {
      OutOfCall(p, t);
    }
    assert forall i | 0 <= i < |p.handed| :: RightInTime(p.handed[i], size);
  }

  lemma OutOfCall(p: Play, t: nat)
    requires WriterInv(p.stream, p.data, p.ring.copying, p.supplied) && t !in p.data
    ensures Project(p.stream, t) == Supplied(p.supplied, t)
  {
    assert Project(p.stream, t) + Rest(p.data, p.ring.copying, t) == Supplied(p.supplied, t);
  }

  // What the histories remember, in terms of the chunks in flight at the time

  ghost predicate InFlightTo(copying: map<nat, R.Chunk>, h: R.Half) {
    exists t | t in copying :: copying[t].half == h && copying[t].len > 0
  }

  /** A half is remembered with the bytes accepted into it and what it contains, as clean if no byte was in flight to it
      when it was opened, and as landed if none is when it is closed; and it goes astray if no half has ended. */
  lemma SwapRemembers(p: Play)
    requires CanSwap(p)
    ensures var q, k := DoSwap(p), |p.handed|;
            && |q.handed| == |p.handed| + 1 && q.handed[..|p.handed|] == p.handed
            && q.handed[k].bytes == p.epoch && q.handed[k].contents == Buffer(p, p.ring.cur)
            && q.handed[k].early == p.early && q.handed[k].clean == p.clean
            && (q.handed[k].landed <==> !InFlightTo(p.ring.copying, p.ring.cur))
            && (q.clean <==> !InFlightTo(p.ring.copying, R.Other(p.ring.cur)))
            && (q.astray <==> p.astray || !p.unserved) && !q.unserved && q.calm == p.calm
  {
    NothingInFlight(p.ring.copying, p.ring.cur);
    NothingInFlight(p.ring.copying, R.Other(p.ring.cur));
  }

  /** A half that is cleared is calm if no byte is in flight to it; the other stays what it was. */
  lemma FillRemembers(p: Play)
    requires CanFill(p) && p.silence < 2 * p.ring.size
    ensures var q := DoFill(p);
            && (p.ring.cur in q.calm <==> !InFlightTo(p.ring.copying, p.ring.cur))
            && (R.Other(p.ring.cur) in q.calm <==> R.Other(p.ring.cur) in p.calm)
            && q.clean == p.clean && q.astray == p.astray && q.handed == p.handed
  {
    hide R.NothingTo, InFlightTo, SetBuffer;
    NothingInFlight(p.ring.copying, p.ring.cur);
    SetBufferFrame(p, p.ring.cur, Zeros(p.ring.size));
  }

  /** A byte played of a half that has not been closed is remembered as early, settled if it has been reserved and no
      chunk that it belongs to is in flight; and it goes astray if a half ends before the one before was swapped. */
  lemma FetchRemembers(p: Play)
    requires CanFetch(p)
    ensures var q, b := DoFetch(p), Buffer(p, p.dmaHalf)[p.dmaPos];
            && q.handed == p.handed && q.clean == p.clean && q.calm == p.calm
            && (q.astray <==> p.astray || (p.unserved && p.dmaPos + 1 >= p.ring.size))
            && (!p.unserved ==> q.early == p.early)
            && (p.unserved ==>
                  && |q.early| == |p.early| + 1 && q.early[..|p.early|] == p.early && q.early[|p.early|].b == b
                  && (q.early[|p.early|].settled <==>
                        && p.dmaPos < p.ring.used
                        && forall t | t in p.ring.copying && p.ring.copying[t].half == p.ring.cur ::
                             !R.Within(p.ring.copying[t], p.dmaPos)))
  {
    hide Settled, Awaited, R.Within;
    SettledMeans(p, p.dmaPos);
  }

  lemma SettledMeans(p: Play, i: nat)
    ensures Settled(p, i) <==>
              && i < p.ring.used
              && forall t | t in p.ring.copying && p.ring.copying[t].half == p.ring.cur ::
                   !R.Within(p.ring.copying[t], i)
  {
  }

  lemma NothingInFlight(copying: map<nat, R.Chunk>, h: R.Half)
    ensures R.NothingTo(copying, h) <==> !InFlightTo(copying, h)
  {
  }

  // What one call moves

  /** t is in a call, the same as before. */
  ghost predicate SameCall(p: Play, q: Play, t: nat) {
    t in q.ring.todo && Supplied(q.supplied, t) == Supplied(p.supplied, t)
  }

  lemma BeginKeepsCall(p: Play, u: nat, d: seq<byte>, t: nat)
    requires Enabled(p, Begin(u, d)) && t in p.ring.todo
    ensures SameCall(p, DoBegin(p, u, d), t)
  {
  }

  lemma EndKeepsCall(p: Play, u: nat, t: nat)
    requires Enabled(p, End(u)) && t in p.ring.todo && t != u
    ensures SameCall(p, DoEnd(p, u), t)
  {
  }

  lemma ReserveKeepsCall(p: Play, u: nat, t: nat)
    requires CanReserve(p, u) && t in p.ring.todo
    ensures SameCall(p, DoReserve(p, u), t)
  {
  }

  lemma HandlerKeepsCall(p: Play, s: Step, t: nat)
    requires Enabled(p, s) && t in p.ring.todo && !s.Begin? && !s.Reserve? && !s.Copy? && !s.End?
    ensures SameCall(p, Apply(p, s), t)
  {
    match s
    case Quiet(r) => R.QuietFrame(p.ring, r);
    case Pad => PadFrame(p);
    case Swap => SwapFrame(p);
    case Fill => FillFrame(p);
    case Leave => assert SameCall(p, DoLeave(p), t);
    case Fetch => FetchFrame(p);
  }

  /** Other threads and the handler leave a thread that is in a call in it, until it ends it. */
  lemma OthersKeepCall(p: Play, s: Step, t: nat)
    requires Enabled(p, s) && t in p.ring.todo && s != End(t)
    ensures SameCall(p, Apply(p, s), t)
  {
    match s
    case Begin(u, d) => BeginKeepsCall(p, u, d, t);
    case Reserve(u) => ReserveKeepsCall(p, u, t);
    case Copy(u) => CopyFrame(p, u);
    case End(u) => EndKeepsCall(p, u, t);
    case _ => HandlerKeepsCall(p, s, t);
  }

  lemma {:induction false} CallInProgress(p: Play, steps: seq<Step>, t: nat)
    requires t in p.ring.todo && Exec(Next, p, steps).Some? && End(t) !in steps
    ensures SameCall(p, Exec(Next, p, steps).value, t)
  {
    if steps != [] {
      CallInProgress(p, steps[..|steps| - 1], t);
      OthersKeepCall(Exec(Next, p, steps[..|steps| - 1]).value, steps[|steps| - 1], t);
    }
  }

  lemma CallBegins(p: Play, t: nat, d: seq<byte>, p1: Play)
    requires Inv(p) && Next(p, Begin(t, d)) == Some(p1)
    ensures Inv(p1) && t in p1.ring.todo
    ensures Supplied(p1.supplied, t) == Project(p.stream, t) + ToWrite(d)
  {
    OutOfCall(p, t);
    RingStep(p, Begin(t, d));
    StepFacts(p, Begin(t, d));
    BeginStep(p, t, d);
    BeginContents(p, t, d);
  }

  lemma CallEnds(p: Play, t: nat, q: Play)
    requires Inv(p) && Next(p, End(t)) == Some(q)
    ensures Project(q.stream, t) == Supplied(p.supplied, t)
  {
    EndStep(p, t);
    OutOfCall(q, t);
  }

  /** A call of pcm_write, from Begin to End, with anything going on in between: it appends to the
      caller's part of the stream exactly the bytes it was given, if and only if their number fits
      a signed 32-bit int; and otherwise nothing. */
  lemma WriteMovesRequest(size: nat, before: seq<Step>, p: Play, t: nat, d: seq<byte>, p1: Play,
                          during: seq<Step>, p2: Play, q: Play)
    requires size > 0 && Exec(Next, Init(size), before) == Some(p) && Next(p, Begin(t, d)) == Some(p1)
    requires Exec(Next, p1, during) == Some(p2) && End(t) !in during && Next(p2, End(t)) == Some(q)
    ensures Project(q.stream, t) == Project(p.stream, t) + if |d| < 0x8000_0000 then d else []
    ensures Project(q.stream, t) == Project(p.stream, t) + d <==> |d| < 0x8000_0000
  {
    InitInv(size);
    InvRun(Init(size), before);
    CallBegins(p, t, d, p1);
    InvRun(p1, during);
    CallInProgress(p1, during, t);
    CallEnds(p2, t, q);
    SameLength(Project(p.stream, t), d);
  }

  lemma SameLength(s: seq<byte>, d: seq<byte>)
    ensures s + ToWrite(d) == s + d <==> |d| < 0x8000_0000
  {
    assert |s + ToWrite(d)| == |s| + |ToWrite(d)| && |s + d| == |s| + |d|;
  }

  /** Two gigabytes of silence are accepted without a byte being moved. */
  lemma HugeWriteMovesNothing(size: nat)
    requires size > 0
    ensures var d := Zeros(0x8000_0000);
            && Exec(Next, Init(size), [Begin(7, d), End(7)]).Some?
            && Exec(Next, Init(size), [Begin(7, d), End(7)]).value.stream == []
  {
    var d := Zeros(0x8000_0000);
    var p := Init(size);
    var p1 := DoBegin(p, 7, d);
    Chain2(Next, p, Begin(7, d), p1, End(7), DoEnd(p1, 7));
  }

  /** The stream is as long as what the ring has accounted for. */
  lemma {:induction false} VolumeRun(size: nat, steps: seq<Step>)
    requires Exec(Next, Init(size), steps).Some?
    ensures var p := Exec(Next, Init(size), steps).value; |p.stream| == p.ring.closed + p.ring.used
  {
    hide R.Apply;
    if steps != [] {
      VolumeRun(size, steps[..|steps| - 1]);
      VolumeStep(Exec(Next, Init(size), steps[..|steps| - 1]).value, steps[|steps| - 1]);
    }
  }

  ghost predicate Accounted(p: Play) { |p.stream| == p.ring.closed + p.ring.used }

  lemma VolumeStep(p: Play, s: Step)
    requires Enabled(p, s) && Accounted(p)
    ensures Accounted(Apply(p, s))
  {
    hide R.Apply, DoReserve, DoCopy, DoPad, DoFill, DoFetch, CanCopy, CanPad, CanFetch, CanReserve;
    match s
    case Reserve(t) => ReserveVolume(p, t);
    case Fetch => FetchFrame(p);
    case Pad => PadFrame(p);
    case Fill => FillFrame(p);
    case Copy(t) => CopyFrame(p, t);
    case _ => ControlVolume(p, s);
  }

  lemma ControlVolume(p: Play, s: Step)
    requires Enabled(p, s) && Accounted(p) && (s.Quiet? || s.Swap? || s.Begin? || s.End? || s.Leave?)
    ensures Accounted(Apply(p, s))
  {
    hide R.Apply;
    match s
    case Quiet(r) => R.QuietFrame(p.ring, r);
    case Swap => R.SwapFrame(p.ring);
    case _ => R.CallFrame(p.ring);
  }

  lemma ReserveVolume(p: Play, t: nat)
    requires CanReserve(p, t) && Accounted(p)
    ensures Accounted(DoReserve(p, t))
  {
    var bs := p.data[t][..p.ring.lock.phase.n];
    assert |Tag(t, bs)| == p.ring.lock.phase.n;
  }
}
