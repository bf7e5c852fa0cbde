/**
 The driver's silence bookkeeping: wr_silence counts how much of the playback area is known to
 be silent, so that an idle device stops being cleared once both halves are.
 */
module Silence {
  import opened Runs
  import opened Bytes
  import M = CountingMutex
  import R = Ring
  import opened Playback

  /** Some writer is between mutex_acquire and its reservation. */
  predicate InFlight(m: M.Mutex) { m.added != {} || m.queue != [] || m.held != {} }

  /** waiting_count, with a release that is being undone taken back. */
  function Waiting(m: M.Mutex): int { m.waiting + if m.release.Undoing? then 1 else 0 }

  predicate AfterSwap(l: R.Lock) { l.Handler? && !l.at.Entered? }

  predicate Silent(b: seq<byte>) { b == Zeros(|b|) }

  /** The silence count and the mutex: once a fill has been made and no writer has come since,
      the mutex is free, so that the next interrupt fills too. */
  ghost predicate CountInv(silence: nat, size: nat, lock: R.Lock, m: M.Mutex, used: nat) {
    && (silence == 0 || silence == size || silence == 2 * size)
    && size > 0
    && (silence > 0 ==> used == 0)
    && (!InFlight(m) && silence > 0 ==> Waiting(m) == 0 && !m.release.Posting?)
    && (!InFlight(m) && lock == R.Handler(R.Leaving(false)) ==> Waiting(m) == 0)
    && (!InFlight(m) && m.release.Undoing? ==> Waiting(m) == 0)
    && (!InFlight(m) && lock == R.Handler(R.Leaving(true)) ==> silence == 0)
  }

  /** A half that was cleared while nothing was in flight to it is silent and stays so. */
  ghost predicate Quieted(p: Play, h: R.Half) {
    h in p.calm ==> Silent(Buffer(p, h)) && R.NothingTo(p.ring.copying, h)
  }

  ghost predicate Counted(p: Play) { CountInv(p.silence, p.ring.size, p.ring.lock, p.ring.mutex, p.ring.used) }

  /** What the silence count says about the halves. */
  ghost predicate Silenced(p: Play) {
    && (p.silence == 2 * p.ring.size ==> Quieted(p, R.One) && Quieted(p, R.Two))
    && (p.silence == p.ring.size ==>
          Quieted(p, if AfterSwap(p.ring.lock) && !p.filled then R.Other(p.ring.cur) else p.ring.cur))
  }

  ghost predicate SilenceInv(p: Play) { Counted(p) && (!InFlight(p.ring.mutex) ==> Silenced(p)) }

  /** The mutex and lock steps. */
  lemma QuietCount(p: Play, r: R.Step)
    requires R.Inv(p.ring) && SilenceInv(p) && CanQuiet(p, r)
    ensures SilenceInv(DoQuiet(p, r))
  {
    if R.HandlerStep(r) { HandlerCount(p, r); } else { ClientCount(p, r); }
  }

  lemma HandlerCount(p: Play, r: R.Step)
    requires R.Inv(p.ring) && SilenceInv(p) && CanQuiet(p, r) && R.HandlerStep(r)
    ensures SilenceInv(DoQuiet(p, r))
  {
    R.QuietFrame(p.ring, r);
  }

  lemma ClientCount(p: Play, r: R.Step)
    requires R.Inv(p.ring) && SilenceInv(p) && CanQuiet(p, r) && !R.HandlerStep(r)
    ensures SilenceInv(DoQuiet(p, r))
  {
    R.QuietFrame(p.ring, r);
  }

  lemma ReserveSilence(p: Play, t: nat)
    requires SilenceInv(p) && CanReserve(p, t)
    requires p.ring.lock.Client? && p.ring.mutex.release.Idle?
    ensures SilenceInv(DoReserve(p, t))
  {
  }

  lemma CopySilence(p: Play, t: nat)
    requires Sizes(p) && SilenceInv(p) && CanCopy(p, t)
    ensures SilenceInv(DoCopy(p, t))
  {
    CopyFrame(p, t);
    if Quieted(p, R.One) { CopyQuieted(p, t, R.One); }
    if Quieted(p, R.Two) { CopyQuieted(p, t, R.Two); }
  }

  lemma CopyQuieted(p: Play, t: nat, h: R.Half)
    requires CanCopy(p, t) && Quieted(p, h)
    ensures Quieted(DoCopy(p, t), h)
  {
    CopyFrame(p, t);
    CopyPlace(p, t);
  }

  lemma SwapSilence(p: Play)
    requires SilenceInv(p) && CanSwap(p)
    requires PhaseInv(p.ring.lock, p.padded, p.filled)
    ensures SilenceInv(DoSwap(p))
  {
    SwapFrame(p);
  }

  lemma PadSilence(p: Play)
    requires SilenceInv(p) && CanPad(p)
    ensures SilenceInv(DoPad(p))
  {
    PadFrame(p);
  }

  lemma FillSilence(p: Play)
    requires SilenceInv(p) && CanFill(p) && p.ring.size == |Back(p)|
    requires p.ring.used == 0 && p.ring.mutex.release.Idle?
    ensures SilenceInv(DoFill(p))
  {
    FillFrame(p);
  }

  /** What the other invariants say that the silence count depends on. */
  ghost predicate Facts(p: Play, s: Step) {
    match s
    case Reserve(t) => p.ring.lock.Client? && p.ring.mutex.release.Idle?
    case Copy(t) => Sizes(p)
    case Fill => p.ring.size == |Back(p)| && p.ring.used == 0 && p.ring.mutex.release.Idle?
    case _ => true
  }

  lemma StepFacts(p: Play, s: Step)
    requires Inv(p) && Enabled(p, s) && !s.Quiet?
    ensures Facts(p, s)
  {
  }

  lemma SilenceStep(p: Play, s: Step)
    requires SilenceInv(p) && Enabled(p, s) && Facts(p, s) && !s.Quiet?
    requires PhaseInv(p.ring.lock, p.padded, p.filled)
    ensures SilenceInv(Apply(p, s))
  {
    match s
    case Reserve(t) => ReserveSilence(p, t);
    case Copy(t) => CopySilence(p, t);
    case Pad => PadSilence(p);
    case Swap => SwapSilence(p);
    case Fill => FillSilence(p);
    case Leave => LeaveSilence(p);
    case Begin(t, d) => BeginSilence(p, t, d);
    case End(t) => EndSilence(p, t);
    case Fetch => FetchSilence(p);
  }

  lemma LeaveSilence(p: Play)
    requires SilenceInv(p) && CanLeave(p)
    requires PhaseInv(p.ring.lock, p.padded, p.filled)
    ensures SilenceInv(DoLeave(p))
  {
  }

  lemma BeginSilence(p: Play, t: nat, d: seq<byte>)
    requires SilenceInv(p) && Enabled(p, Begin(t, d))
    ensures SilenceInv(DoBegin(p, t, d))
  {
  }

  lemma EndSilence(p: Play, t: nat)
    requires SilenceInv(p) && Enabled(p, End(t))
    ensures SilenceInv(DoEnd(p, t))
  {
  }

  lemma FetchSilence(p: Play)
    requires SilenceInv(p) && CanFetch(p)
    ensures SilenceInv(DoFetch(p))
  {
    FetchFrame(p);
  }

  lemma {:induction false} SilenceRun(p: Play, steps: seq<Step>)
    requires Inv(p) && SilenceInv(p) && Exec(Next, p, steps).Some?
    ensures Inv(Exec(Next, p, steps).value) && SilenceInv(Exec(Next, p, steps).value)
  {
    InvRun(p, steps);
    if steps != [] {
      var init, s := steps[..|steps| - 1], steps[|steps| - 1];
      SilenceRun(p, init);
      var q := Exec(Next, p, init).value;
      if s.Quiet? {
        QuietCount(q, s.r);
      } else {
        StepFacts(q, s);
        SilenceStep(q, s);
      }
    }
  }

  lemma InitSilence(size: nat)
    requires size > 0
    ensures SilenceInv(Init(size))
  {
  }

  /** In every run wr_silence is 0, wr_size or 2 * wr_size; and the last of these means, when no writer is
      between its acquire and its reservation, that both halves are silent, but for one to which bytes were in
      flight when it was cleared. */
  lemma FullCountMeansSilent(size: nat, steps: seq<Step>, p: Play)
    requires size > 0 && Exec(Next, Init(size), steps) == Some(p)
    ensures p.silence == 0 || p.silence == size || p.silence == 2 * size
    ensures !InFlight(p.ring.mutex) && p.silence == 2 * size ==>
              (R.One in p.calm ==> p.one == Zeros(size)) && (R.Two in p.calm ==> p.two == Zeros(size))
  {
    InitInv(size);
    InitSilence(size);
    SilenceRun(Init(size), steps);
    SizeRun(Init(size), steps);
  }

  /** What a copy does to a half that has been silenced: it stays silent if and only if the bytes are silence. */
  lemma CopyOnSilence(p: Play, t: nat)
    requires CanCopy(p, t) && Silent(Buffer(p, p.ring.copying[t].half))
    ensures Silent(Buffer(DoCopy(p, t), p.ring.copying[t].half)) <==> AllZero(p.data[t][..p.ring.copying[t].len])
  {
    var c, bs := p.ring.copying[t], p.data[t][..p.ring.copying[t].len];
    var b, b' := Buffer(p, c.half), Buffer(DoCopy(p, t), c.half);
    CopyPlace(p, t);
    assert forall i | 0 <= i < |bs| :: b'[c.off + i] == bs[i];
    if AllZero(bs) { assert forall i | 0 <= i < |b'| :: b'[i] == 0; }
  }

  // Convergence: how an idle device falls silent

  /** A step of the interrupt handler or the DMA. */
  predicate NoWrite(s: Step) {
    s.Pad? || s.Swap? || s.Fill? || s.Leave? || s.Fetch?
    || (s.Quiet? && (s.r.HEnter? || s.r.HStartRelease? || s.r.HFinishRelease?))
  }

  function NextIdle(p: Play, s: Step): Option<Play> { if NoWrite(s) then Next(p, s) else None }

  lemma {:induction false} IdleIsRun(p: Play, steps: seq<Step>)
    requires Exec(NextIdle, p, steps).Some?
    ensures Exec(Next, p, steps) == Exec(NextIdle, p, steps)
  {
    if steps != [] {
      IdleIsRun(p, steps[..|steps| - 1]);
    }
  }

  /** Interrupts since p0 that are done with the back half. */
  function Done(p0: Play, p: Play): int {
    p.ring.services - p0.ring.services - if AfterSwap(p.ring.lock) && !p.filled then 1 else 0
  }

  /** How far the device has got after so many interrupts without a write: the first one may
      still find the token that the last writer left taken; the next two fill a half each. */
  ghost predicate Settling(p0: Play, p: Play) {
    var m, l := p.ring.mutex, p.ring.lock;
    && !InFlight(m) && !l.Client?
    && p.ring.size == p0.ring.size
    && p.ring.services >= p0.ring.services + (if AfterSwap(l) then 1 else 0)
    && (Done(p0, p) >= 1 || l == R.Handler(R.HandlerPhase.Releasing) || (l.Handler? && l.at.Leaving?) ==>
          Waiting(m) == 0)
    && (p.ring.services - p0.ring.services >= 2 ==>
          && (l == R.Handler(R.HandlerPhase.Releasing) ==> m.release.Undoing?)
          && (l.Handler? && l.at.Leaving? ==> !l.at.released))
    && (Done(p0, p) >= 2 ==> p.silence >= p.ring.size)
    && (Done(p0, p) >= 3 ==> p.silence >= 2 * p.ring.size)
  }

  lemma SettlingHandler(p0: Play, p: Play, r: R.Step)
    requires Settling(p0, p) && R.Inv(p.ring) && CanQuiet(p, r) && NoWrite(Quiet(r))
    requires PhaseInv(p.ring.lock, p.padded, p.filled)
    ensures Settling(p0, DoQuiet(p, r))
  {
    R.QuietFrame(p.ring, r);
  }

  lemma SettlingStep(p0: Play, p: Play, s: Step)
    requires Settling(p0, p) && Enabled(p, s) && NoWrite(s) && !s.Quiet?
    requires PhaseInv(p.ring.lock, p.padded, p.filled)
    requires Counted(p)
    ensures Settling(p0, Apply(p, s))
  {
    match s
    case Pad => SettlingPad(p0, p);
    case Swap => SettlingSwap(p0, p);
    case Fill => SettlingFill(p0, p);
    case Leave => SettlingLeave(p0, p);
    case Fetch => SettlingFetch(p0, p);
  }

  lemma SettlingSwap(p0: Play, p: Play)
    requires Settling(p0, p) && CanSwap(p)
    requires PhaseInv(p.ring.lock, p.padded, p.filled)
    ensures Settling(p0, DoSwap(p))
  {
  }

  lemma SettlingLeave(p0: Play, p: Play)
    requires Settling(p0, p) && CanLeave(p)
    requires PhaseInv(p.ring.lock, p.padded, p.filled)
    requires Counted(p)
    ensures Settling(p0, DoLeave(p))
  {
  }

  lemma SettlingPad(p0: Play, p: Play)
    requires Settling(p0, p) && CanPad(p)
    ensures Settling(p0, DoPad(p))
  {
    PadFrame(p);
  }

  lemma SettlingFill(p0: Play, p: Play)
    requires Settling(p0, p) && CanFill(p)
    requires PhaseInv(p.ring.lock, p.padded, p.filled)
    requires Counted(p)
    ensures Settling(p0, DoFill(p))
  {
    FillFrame(p);
  }

  lemma SettlingFetch(p0: Play, p: Play)
    requires Settling(p0, p) && CanFetch(p)
    ensures Settling(p0, DoFetch(p))
  {
    FetchFrame(p);
  }

  lemma {:induction false} SettlingRun(p0: Play, steps: seq<Step>)
    requires Inv(p0) && SilenceInv(p0) && p0.ring.lock.Free? && !InFlight(p0.ring.mutex)
    requires Exec(NextIdle, p0, steps).Some?
    ensures Settling(p0, Exec(NextIdle, p0, steps).value)
  {
    if steps != [] {
      var init, s := steps[..|steps| - 1], steps[|steps| - 1];
      SettlingRun(p0, init);
      IdleIsRun(p0, init);
      SilenceRun(p0, init);
      if s.Quiet? {
        SettlingHandler(p0, Exec(NextIdle, p0, init).value, s.r);
      } else {
        SettlingStep(p0, Exec(NextIdle, p0, init).value, s);
      }
    }
  }

  /** From any state that can be reached in which no writer is in flight, three interrupts without a
      write leave both halves of the playback area silent, but for one to which bytes were in flight when it
      was cleared. */
  lemma ThreeInterruptsSilence(size: nat, before: seq<Step>, p0: Play, steps: seq<Step>, p: Play)
    requires size > 0 && Exec(Next, Init(size), before) == Some(p0)
    requires p0.ring.lock.Free? && !InFlight(p0.ring.mutex)
    requires Exec(NextIdle, p0, steps) == Some(p)
    requires p.ring.lock.Free? && p.ring.services >= p0.ring.services + 3
    ensures p.silence == 2 * size
    ensures (R.One in p.calm ==> p.one == Zeros(size)) && (R.Two in p.calm ==> p.two == Zeros(size))
  {
    InitInv(size);
    InitSilence(size);
    SilenceRun(Init(size), before);
    IdleIsRun(p0, steps);
    SilenceRun(p0, steps);
    SizeRun(Init(size), before);
    SizeRun(p0, steps);
    SettlingRun(p0, steps);
  }
}
