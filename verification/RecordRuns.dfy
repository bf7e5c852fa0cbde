/** Runs of the record system that correspond to whole pieces of the driver's code. */
module RecordRuns {
  import opened Runs
  import opened Bytes
  import M = CountingMutex
  import R = Ring
  import opened Record

  // The reservation in pcm_read, from acquire_spinlock to release_spinlock

  predicate Releases(p: Rec, t: nat)
    requires t in p.ring.todo
  {
    p.ring.size - p.ring.used > p.ring.todo[t]
  }

  function BlockSize(p: Rec, t: nat): nat
    requires t in p.ring.todo && p.ring.used <= p.ring.size
  {
    if Releases(p, t) then p.ring.todo[t] else p.ring.size - p.ring.used
  }

  ghost predicate CanTakeTurn(p: Rec, t: nat) {
    && p.ring.lock.Free? && t in p.ring.mutex.held && p.ring.mutex.release.Idle?
    && t in p.ring.todo && p.ring.used <= p.ring.size == |p.one| == |p.two|
  }

  /** The state after t, with mutex m, has reserved n bytes and released the spinlock. */
  function Reserved(p: Rec, t: nat, m: M.Mutex, kept: bool, n: nat): Rec
    requires p.ring.used + n <= |Back(p)|
  {
    var c := R.Chunk(t, p.ring.cur, p.ring.used, n);
    p.(ring := p.ring.(
         lock := R.Free, mutex := m.(held := m.held - {t}, leaves := m.leaves + 1),
         used := p.ring.used + n, copying := p.ring.copying[t := c], chunks := p.ring.chunks + [c],
         kept := p.ring.kept + if kept then 1 else 0,
         released := p.ring.released + if kept then 0 else 1),
       stream := p.stream + Tag(t, Back(p)[p.ring.used..p.ring.used + n]),
       overtaken := p.overtaken + TooLate(|p.stream|, p.ring.used, n, p.over))
  }

  /** The state after the turn. */
  function Turn(p: Rec, t: nat): Rec
    requires CanTakeTurn(p, t)
  {
    Reserved(p, t, if Releases(p, t) then M.Released(p.ring.mutex) else p.ring.mutex,
             !Releases(p, t), BlockSize(p, t))
  }

  function Locked(p: Rec, l: R.Lock, m: M.Mutex): Rec {
    p.(ring := p.ring.(lock := l, mutex := m))
  }

  lemma EnterStep(p: Rec, t: nat)
    requires CanTakeTurn(p, t)
    ensures Next(p, Quiet(R.Enter(t))) == Some(Locked(p, R.Client(t, R.Testing), p.ring.mutex))
  {
  }

  lemma TestStep(p: Rec, t: nat)
    requires CanTakeTurn(p, t)
    ensures var n := BlockSize(p, t);
            Next(Locked(p, R.Client(t, R.Testing), p.ring.mutex), Quiet(R.Test(t)))
            == Some(if Releases(p, t)
                    then Locked(p, R.Client(t, R.ClientPhase.Releasing(n)), M.Apply(p.ring.mutex, M.StartRelease))
                    else Locked(p, R.Client(t, R.Reserving(true, n)), p.ring.mutex))
  {
  }

  lemma FinishStep(p: Rec, t: nat, n: nat)
    requires p.ring.mutex.release.Idle?
    ensures Next(Locked(p, R.Client(t, R.ClientPhase.Releasing(n)), M.Apply(p.ring.mutex, M.StartRelease)),
                 Quiet(R.FinishRelease(t)))
            == Some(Locked(p, R.Client(t, R.Reserving(false, n)), M.Released(p.ring.mutex)))
  {
  }

  lemma ReserveStep(p: Rec, t: nat, m: M.Mutex, kept: bool, n: nat)
    requires t in m.held && p.ring.used + n <= |Back(p)|
    ensures Next(Locked(p, R.Client(t, R.Reserving(kept, n)), m), Reserve(t)) == Some(Reserved(p, t, m, kept, n))
  {
  }

  /** The whole turn is a run of the system. */
  lemma TurnSteps(p: Rec, t: nat) returns (steps: seq<Step>)
    requires CanTakeTurn(p, t)
    ensures Exec(Next, p, steps) == Some(Turn(p, t))
    ensures steps != [] && forall s | s in steps :: OfThread(s)
  {
    steps := if Releases(p, t)
      then [Quiet(R.Enter(t)), Quiet(R.Test(t)), Quiet(R.FinishRelease(t)), Reserve(t)]
      else [Quiet(R.Enter(t)), Quiet(R.Test(t)), Reserve(t)];
    var n, m := BlockSize(p, t), p.ring.mutex;
    EnterStep(p, t);
    TestStep(p, t);
    var p1 := Locked(p, R.Client(t, R.Testing), m);
    if Releases(p, t) {
      FinishStep(p, t, n);
      M.HeldStays(m, t);
      ReserveStep(p, t, M.Released(m), false, n);
      Chain4(Next, p, Quiet(R.Enter(t)), p1,
             Quiet(R.Test(t)), Locked(p, R.Client(t, R.ClientPhase.Releasing(n)), M.Apply(m, M.StartRelease)),
             Quiet(R.FinishRelease(t)), Locked(p, R.Client(t, R.Reserving(false, n)), M.Released(m)),
             Reserve(t), Turn(p, t));
    } else {
      ReserveStep(p, t, m, true, n);
      Chain3(Next, p, Quiet(R.Enter(t)), p1, Quiet(R.Test(t)), Locked(p, R.Client(t, R.Reserving(true, n)), m),
             Reserve(t), Turn(p, t));
    }
  }

  // The other steps of pcm_read

  lemma OneStep(p: Rec, s: Step, q: Rec)
    requires Next(p, s) == Some(q)
    ensures Exec(Next, p, [s]) == Some(q)
  {
    ExecSnoc(Next, p, [], p, s);
    assert [] + [s] == [s];
  }

  ghost predicate CanLand(p: Rec, t: nat) {
    && t in p.ring.copying && t in p.ring.todo
    && var c := p.ring.copying[t];
       c.len <= p.ring.todo[t] && c.off + c.len <= |p.one| == |p.two|
  }

  /** The bytes t is copying out. */
  function InHand(p: Rec, t: nat): seq<byte>
    requires CanLand(p, t)
  {
    var c := p.ring.copying[t];
    Buffer(p, c.half)[c.off..c.off + c.len]
  }

  /** The memcpy and the pointer updates after it. */
  function Landed(p: Rec, t: nat): Rec
    requires CanLand(p, t)
  {
    var c := p.ring.copying[t];
    p.(ring := p.ring.(todo := p.ring.todo[t := p.ring.todo[t] - c.len], copying := p.ring.copying - {t}),
       got := p.got[t := Got(p.got, t) + InHand(p, t)])
  }

  lemma LandStep(p: Rec, t: nat)
    requires CanLand(p, t)
    ensures Exec(Next, p, [Copy(t)]) == Some(Landed(p, t))
  {
    OneStep(p, Copy(t), Landed(p, t));
  }

  ghost predicate CanQueue(p: Rec, t: nat) {
    && t in p.ring.todo && p.ring.todo[t] > 0 && t !in p.ring.copying
    && M.Enabled(p.ring.mutex, M.Add(t))
  }

  function Queued(p: Rec, m: M.Mutex): Rec { p.(ring := p.ring.(mutex := m)) }

  lemma AddStep(p: Rec, t: nat)
    requires CanQueue(p, t)
    ensures Exec(Next, p, [Quiet(R.Add(t))]) == Some(Queued(p, M.Apply(p.ring.mutex, M.Add(t))))
  {
    OneStep(p, Quiet(R.Add(t)), Queued(p, M.Apply(p.ring.mutex, M.Add(t))));
  }

  lemma AcquireStep(p: Rec, t: nat)
    requires t in p.ring.mutex.added
    ensures Exec(Next, p, [Quiet(R.Acquire(t))]) == Some(Queued(p, M.Apply(p.ring.mutex, M.Acquire(t))))
  {
    OneStep(p, Quiet(R.Acquire(t)), Queued(p, M.Apply(p.ring.mutex, M.Acquire(t))));
  }

  lemma BeginStep(p: Rec, t: nat, n: nat)
    requires t !in p.ring.todo
    ensures Exec(Next, p, [Begin(t, n)]) == Some(DoBegin(p, t, n))
  {
    OneStep(p, Begin(t, n), DoBegin(p, t, n));
  }

  lemma EndStep(p: Rec, t: nat)
    requires t in p.ring.todo && p.ring.todo[t] == 0 && t !in p.ring.copying
    ensures Exec(Next, p, [End(t)]) == Some(DoEnd(p, t))
  {
    OneStep(p, End(t), DoEnd(p, t));
  }

  lemma CaptureStep(p: Rec, b: byte)
    requires CanCapture(p)
    ensures Exec(Next, p, [Capture(b)]) == Some(DoCapture(p, b))
  {
    OneStep(p, Capture(b), DoCapture(p, b));
  }

  // iw_record_handler as a whole

  ghost predicate CanServe(p: Rec) {
    p.ring.lock.Free? && p.ring.mutex.release.Idle?
  }

  /** The state between the swap and the end of the interrupt. */
  function Swapped(p: Rec, l: R.Lock, m: M.Mutex, releases: nat): Rec {
    p.(ring := p.ring.(
         lock := l, mutex := m, cur := R.Other(p.ring.cur), used := 0,
         total := p.ring.total + p.ring.size, chunks := [], closed := p.ring.closed + p.ring.used,
         services := p.ring.services + 1, handlerReleases := releases),
       unserved := false, consumed := p.consumed + [Consumed(p.given, p.ring.used)], given := Front(p),
       over := {}, astray := p.astray || !p.unserved)
  }

  /** What the handler does to the device, in one go. */
  function Served(p: Rec): Rec
    requires CanServe(p)
  {
    Swapped(p, R.Free, M.Released(p.ring.mutex), p.ring.handlerReleases + 1)
  }

  lemma ServeStep(p: Rec)
    requires CanServe(p)
    ensures Next(p, Quiet(R.HEnter)) == Some(Locked(p, R.Handler(R.Entered), p.ring.mutex))
  {
  }

  lemma SwapStep(p: Rec)
    requires CanServe(p)
    ensures Next(Locked(p, R.Handler(R.Entered), p.ring.mutex), Swap)
         == Some(Swapped(p, R.Handler(R.Swapped), p.ring.mutex, p.ring.handlerReleases))
  {
  }

  lemma StartStep(p: Rec)
    requires CanServe(p)
    ensures Next(Swapped(p, R.Handler(R.Swapped), p.ring.mutex, p.ring.handlerReleases), Quiet(R.HStartRelease))
         == Some(Swapped(p, R.Handler(R.HandlerPhase.Releasing), M.Apply(p.ring.mutex, M.StartRelease),
                         p.ring.handlerReleases + 1))
  {
  }

  /** The first part of the interrupt: the swap, and the beginning of the release. */
  lemma ServeFirst(p: Rec)
    requires CanServe(p)
    ensures Exec(Next, p, [Quiet(R.HEnter), Swap, Quiet(R.HStartRelease)])
         == Some(Swapped(p, R.Handler(R.HandlerPhase.Releasing), M.Apply(p.ring.mutex, M.StartRelease),
                         p.ring.handlerReleases + 1))
  {
    ServeStep(p);
    SwapStep(p);
    StartStep(p);
    Chain3(Next, p, Quiet(R.HEnter), Locked(p, R.Handler(R.Entered), p.ring.mutex),
           Swap, Swapped(p, R.Handler(R.Swapped), p.ring.mutex, p.ring.handlerReleases), Quiet(R.HStartRelease),
           Swapped(p, R.Handler(R.HandlerPhase.Releasing), M.Apply(p.ring.mutex, M.StartRelease),
                   p.ring.handlerReleases + 1));
  }

  lemma ServeRest(p: Rec)
    requires CanServe(p)
    ensures Exec(Next, Swapped(p, R.Handler(R.HandlerPhase.Releasing), M.Apply(p.ring.mutex, M.StartRelease),
                               p.ring.handlerReleases + 1),
                 [Quiet(R.HFinishRelease), Leave])
         == Some(Served(p))
  {
    var m, k := p.ring.mutex, p.ring.handlerReleases + 1;
    var p3 := Swapped(p, R.Handler(R.HandlerPhase.Releasing), M.Apply(m, M.StartRelease), k);
    var p4 := Swapped(p, R.Handler(R.Leaving(m.waiting > 0)), M.Released(m), k);
    FinishHandler(p, k);
    LeaveHandler(p, k);
    Chain2(Next, p3, Quiet(R.HFinishRelease), p4, Leave, Served(p));
  }

  lemma FinishHandler(p: Rec, k: nat)
    requires CanServe(p)
    ensures Next(Swapped(p, R.Handler(R.HandlerPhase.Releasing), M.Apply(p.ring.mutex, M.StartRelease), k),
                 Quiet(R.HFinishRelease))
         == Some(Swapped(p, R.Handler(R.Leaving(p.ring.mutex.waiting > 0)), M.Released(p.ring.mutex), k))
  {
  }

  lemma LeaveHandler(p: Rec, k: nat)
    requires CanServe(p) && k == p.ring.handlerReleases + 1
    ensures Next(Swapped(p, R.Handler(R.Leaving(p.ring.mutex.waiting > 0)), M.Released(p.ring.mutex), k), Leave)
         == Some(Served(p))
  {
  }

  /** The whole interrupt is a run of the system. */
  lemma Serve(p: Rec) returns (steps: seq<Step>)
    requires CanServe(p)
    ensures Exec(Next, p, steps) == Some(Served(p)) && forall s | s in steps :: NoCall(s)
  {
    ServeFirst(p);
    ServeRest(p);
    var a := [Quiet(R.HEnter), Swap, Quiet(R.HStartRelease)];
    steps := a + [Quiet(R.HFinishRelease), Leave];
    ExecAppend(Next, p, a, Exec(Next, p, a).value, [Quiet(R.HFinishRelease), Leave]);
  }
}
