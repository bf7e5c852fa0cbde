/** Runs of the playback system that correspond to whole pieces of the driver's code. */
module PlaybackRuns {
  import opened Runs
  import opened Bytes
  import M = CountingMutex
  import R = Ring
  import opened Playback

  // The reservation in pcm_write, from acquire_spinlock to release_spinlock

  function BlockSize(p: Play, t: nat): nat
    requires t in p.data && p.ring.used <= p.ring.size
  {
    var available := p.ring.size - p.ring.used;
    if available > |p.data[t]| then |p.data[t]| else available
  }

  function Releases(p: Play, t: nat): bool
    requires t in p.data
  {
    p.ring.size - p.ring.used > |p.data[t]|
  }

  ghost predicate CanTakeTurn(p: Play, t: nat) {
    && p.ring.lock.Free? && t in p.ring.mutex.held && p.ring.mutex.release.Idle?
    && t in p.data && t in p.ring.todo && |p.data[t]| == p.ring.todo[t]
    && p.ring.used <= p.ring.size
  }

  /** The state after t, with mutex m, has reserved n bytes and released the spinlock. */
  function Reserved(p: Play, t: nat, m: M.Mutex, kept: bool, n: nat): Play
    requires t in p.data && n <= |p.data[t]|
  {
    var c := R.Chunk(t, p.ring.cur, p.ring.used, n);
    p.(ring := p.ring.(
         lock := R.Free, mutex := m.(held := m.held - {t}, leaves := m.leaves + 1),
         used := p.ring.used + n, copying := p.ring.copying[t := c], chunks := p.ring.chunks + [c],
         kept := p.ring.kept + if kept then 1 else 0,
         released := p.ring.released + if kept then 0 else 1),
       silence := 0, stream := p.stream + Tag(t, p.data[t][..n]), epoch := p.epoch + p.data[t][..n])
  }

  /** The state after the turn. */
  function Turn(p: Play, t: nat): Play
    requires CanTakeTurn(p, t)
  {
    Reserved(p, t, if Releases(p, t) then M.Released(p.ring.mutex) else p.ring.mutex,
             !Releases(p, t), BlockSize(p, t))
  }

  function Locked(p: Play, l: R.Lock, m: M.Mutex): Play {
    p.(ring := p.ring.(lock := l, mutex := m))
  }

  lemma EnterStep(p: Play, t: nat)
    requires CanTakeTurn(p, t)
    ensures Next(p, Quiet(R.Enter(t))) == Some(Locked(p, R.Client(t, R.Testing), p.ring.mutex))
  {
  }

  lemma TestStep(p: Play, t: nat)
    requires CanTakeTurn(p, t)
    ensures var n := BlockSize(p, t);
            Next(Locked(p, R.Client(t, R.Testing), p.ring.mutex), Quiet(R.Test(t)))
            == Some(if Releases(p, t)
                    then Locked(p, R.Client(t, R.ClientPhase.Releasing(n)), M.Apply(p.ring.mutex, M.StartRelease))
                    else Locked(p, R.Client(t, R.Reserving(true, n)), p.ring.mutex))
  {
  }

  lemma FinishStep(p: Play, t: nat, n: nat)
    requires p.ring.mutex.release.Idle?
    ensures Next(Locked(p, R.Client(t, R.ClientPhase.Releasing(n)), M.Apply(p.ring.mutex, M.StartRelease)),
                 Quiet(R.FinishRelease(t)))
            == Some(Locked(p, R.Client(t, R.Reserving(false, n)), M.Released(p.ring.mutex)))
  {
  }

  lemma ReserveStep(p: Play, t: nat, m: M.Mutex, kept: bool, n: nat)
    requires t in m.held && t in p.data && n <= |p.data[t]|
    ensures Next(Locked(p, R.Client(t, R.Reserving(kept, n)), m), Reserve(t)) == Some(Reserved(p, t, m, kept, n))
  {
  }

  /** The whole turn is a run of the system. */
  lemma TurnSteps(p: Play, t: nat) returns (steps: seq<Step>)
    requires CanTakeTurn(p, t)
    ensures Exec(Next, p, steps) == Some(Turn(p, t))
    ensures steps != [] && forall s | s in steps :: OfThread(s)
  {
    steps := if Releases(p, t)
      then [Quiet(R.Enter(t)), Quiet(R.Test(t)), Quiet(R.FinishRelease(t)), Reserve(t)]
      else [Quiet(R.Enter(t)), Quiet(R.Test(t)), Reserve(t)];
    var n, m := BlockSize(p, t), p.ring.mutex;
    EnterStep(p, t);
    TestStep(p, t);
    var p1 := Locked(p, R.Client(t, R.Testing), m);
    if Releases(p, t) {
      FinishStep(p, t, n);
      M.HeldStays(m, t);
      ReserveStep(p, t, M.Released(m), false, n);
      Chain4(Next, p, Quiet(R.Enter(t)), p1,
             Quiet(R.Test(t)), Locked(p, R.Client(t, R.ClientPhase.Releasing(n)), M.Apply(m, M.StartRelease)),
             Quiet(R.FinishRelease(t)), Locked(p, R.Client(t, R.Reserving(false, n)), M.Released(m)),
             Reserve(t), Turn(p, t));
    } else {
      ReserveStep(p, t, m, true, n);
      Chain3(Next, p, Quiet(R.Enter(t)), p1, Quiet(R.Test(t)), Locked(p, R.Client(t, R.Reserving(true, n)), m),
             Reserve(t), Turn(p, t));
    }
  }

  // The other steps of pcm_write

  lemma OneStep(p: Play, s: Step, q: Play)
    requires Next(p, s) == Some(q)
    ensures Exec(Next, p, [s]) == Some(q)
  {
    ExecSnoc(Next, p, [], p, s);
    assert [] + [s] == [s];
  }

  ghost predicate CanLand(p: Play, t: nat) {
    && t in p.ring.copying && t in p.ring.todo && t in p.data
    && var c := p.ring.copying[t];
       c.len <= p.ring.todo[t] && c.len <= |p.data[t]| && c.off + c.len <= |p.one| == |p.two|
  }

  /** The memcpy and the pointer updates after it. */
  function Landed(p: Play, t: nat): Play
    requires CanLand(p, t)
  {
    var c := p.ring.copying[t];
    var bs := p.data[t][..c.len];
    p.(ring := p.ring.(todo := p.ring.todo[t := p.ring.todo[t] - c.len], copying := p.ring.copying - {t}),
       one := if c.half.One? then Splice(p.one, c.off, bs) else p.one,
       two := if c.half.One? then p.two else Splice(p.two, c.off, bs),
       data := p.data[t := p.data[t][c.len..]])
  }

  lemma LandStep(p: Play, t: nat)
    requires CanLand(p, t)
    ensures Exec(Next, p, [Copy(t)]) == Some(Landed(p, t))
  {
    OneStep(p, Copy(t), Landed(p, t));
  }

  ghost predicate CanQueue(p: Play, t: nat) {
    && t in p.ring.todo && p.ring.todo[t] > 0 && t !in p.ring.copying
    && M.Enabled(p.ring.mutex, M.Add(t))
  }

  function Queued(p: Play, m: M.Mutex): Play { p.(ring := p.ring.(mutex := m)) }

  lemma AddStep(p: Play, t: nat)
    requires CanQueue(p, t)
    ensures Exec(Next, p, [Quiet(R.Add(t))]) == Some(Queued(p, M.Apply(p.ring.mutex, M.Add(t))))
  {
    OneStep(p, Quiet(R.Add(t)), Queued(p, M.Apply(p.ring.mutex, M.Add(t))));
  }

  lemma AcquireStep(p: Play, t: nat)
    requires t in p.ring.mutex.added
    ensures Exec(Next, p, [Quiet(R.Acquire(t))]) == Some(Queued(p, M.Apply(p.ring.mutex, M.Acquire(t))))
  {
    OneStep(p, Quiet(R.Acquire(t)), Queued(p, M.Apply(p.ring.mutex, M.Acquire(t))));
  }

  lemma BeginStep(p: Play, t: nat, d: seq<byte>)
    requires t !in p.ring.todo
    ensures Exec(Next, p, [Begin(t, d)]) == Some(DoBegin(p, t, d))
  {
    OneStep(p, Begin(t, d), DoBegin(p, t, d));
  }

  lemma EndStep(p: Play, t: nat)
    requires t in p.ring.todo && p.ring.todo[t] == 0 && t !in p.ring.copying
    ensures Exec(Next, p, [End(t)]) == Some(DoEnd(p, t))
  {
    OneStep(p, End(t), DoEnd(p, t));
  }

  // iw_playback_handler as a whole

  ghost predicate CanServe(p: Play) {
    && p.ring.lock.Free? && p.ring.mutex.release.Idle? && !p.padded && !p.filled
    && 0 < p.ring.size == |p.one| == |p.two| && p.ring.used <= p.ring.size
  }

  /** The back half as the handler hands it over. */
  function Padded(p: Play): seq<byte>
    requires p.ring.used <= p.ring.size == |Back(p)|
  {
    if 0 < p.ring.used < p.ring.size then Back(p)[..p.ring.used] + Zeros(p.ring.size - p.ring.used) else Back(p)
  }

  /** The back half with what is remembered of it. */
  function Given(p: Play): Handed
    requires p.ring.used <= p.ring.size == |Back(p)|
  {
    Handed(p.epoch, Padded(p), p.early, p.clean, R.NothingTo(p.ring.copying, p.ring.cur))
  }

  /** What the handler does to the device, in one go. */
  function Served(p: Play): Play
    requires CanServe(p)
  {
    var released := p.ring.mutex.waiting > 0;
    var fills := !released && p.silence < 2 * p.ring.size;
    var padded := Padded(p);
    var newBack := if fills then Zeros(p.ring.size) else Front(p);
    p.(ring := p.ring.(
         mutex := M.Released(p.ring.mutex), cur := R.Other(p.ring.cur), used := 0,
         total := p.ring.total + p.ring.size, chunks := [], closed := p.ring.closed + p.ring.used,
         services := p.ring.services + 1, handlerReleases := p.ring.handlerReleases + 1),
       one := if p.ring.cur.One? then padded else newBack,
       two := if p.ring.cur.One? then newBack else padded,
       silence := if fills then p.silence + p.ring.size else p.silence,
       calm := if fills then Calm(p.calm, R.Other(p.ring.cur), p.ring.copying) else p.calm,
       handed := p.handed + [Given(p)], epoch := [], early := [], unserved := false,
       clean := R.NothingTo(p.ring.copying, R.Other(p.ring.cur)), astray := p.astray || !p.unserved)
  }

  function AfterPad(p: Play): Play
    requires CanServe(p)
  {
    p.(ring := p.ring.(lock := R.Handler(R.Entered)), padded := true,
       one := if p.ring.cur.One? then Padded(p) else p.one,
       two := if p.ring.cur.One? then p.two else Padded(p))
  }

  function AfterSwap(p: Play, l: R.Lock): Play
    requires CanServe(p)
  {
    p.(ring := p.ring.(
         lock := l, cur := R.Other(p.ring.cur), used := 0,
         total := p.ring.total + p.ring.size, chunks := [], closed := p.ring.closed + p.ring.used,
         services := p.ring.services + 1),
       one := if p.ring.cur.One? then Padded(p) else p.one,
       two := if p.ring.cur.One? then p.two else Padded(p),
       handed := p.handed + [Given(p)], epoch := [], early := [], unserved := false,
       clean := R.NothingTo(p.ring.copying, R.Other(p.ring.cur)), astray := p.astray || !p.unserved)
  }

  function AfterRelease(p: Play, l: R.Lock, m: M.Mutex): Play
    requires CanServe(p)
  {
    var q := AfterSwap(p, l);
    q.(ring := q.ring.(mutex := m, handlerReleases := p.ring.handlerReleases + 1))
  }

  lemma HandlerEnterStep(p: Play)
    requires CanServe(p)
    ensures Next(p, Quiet(R.HEnter)) == Some(Locked(p, R.Handler(R.Entered), p.ring.mutex))
  {
  }

  lemma PadStep(p: Play)
    requires CanServe(p)
    ensures Next(Locked(p, R.Handler(R.Entered), p.ring.mutex), Pad) == Some(AfterPad(p))
  {
  }

  lemma SwapStep(p: Play)
    requires CanServe(p)
    ensures Next(AfterPad(p), Swap) == Some(AfterSwap(p, R.Handler(R.Swapped)))
  {
  }

  lemma StartStep(p: Play)
    requires CanServe(p)
    ensures Next(AfterSwap(p, R.Handler(R.Swapped)), Quiet(R.HStartRelease))
         == Some(AfterRelease(p, R.Handler(R.HandlerPhase.Releasing), M.Apply(p.ring.mutex, M.StartRelease)))
  {
  }

  lemma HandlerFinishStep(p: Play)
    requires CanServe(p)
    ensures Next(AfterRelease(p, R.Handler(R.HandlerPhase.Releasing), M.Apply(p.ring.mutex, M.StartRelease)),
                 Quiet(R.HFinishRelease))
         == Some(AfterRelease(p, R.Handler(R.Leaving(p.ring.mutex.waiting > 0)), M.Released(p.ring.mutex)))
  {
  }

  lemma FillStep(p: Play)
    requires CanServe(p) && p.ring.mutex.waiting <= 0
    ensures Next(AfterRelease(p, R.Handler(R.Leaving(false)), M.Released(p.ring.mutex)), Fill)
         == Some(Served(p).(ring := Served(p).ring.(lock := R.Handler(R.Leaving(false))), filled := true))
  {
  }

  lemma LeaveStep(p: Play)
    requires CanServe(p)
    ensures p.ring.mutex.waiting > 0 ==>
              Next(AfterRelease(p, R.Handler(R.Leaving(true)), M.Released(p.ring.mutex)), Leave) == Some(Served(p))
    ensures Next(Served(p).(ring := Served(p).ring.(lock := R.Handler(R.Leaving(false))), filled := true), Leave)
         == Some(Served(p))
  {
  }

  /** The first half of the interrupt: pad, swap and begin the release. */
  lemma ServeFirst(p: Play)
    requires CanServe(p)
    ensures Exec(Next, p, [Quiet(R.HEnter), Pad, Swap, Quiet(R.HStartRelease)])
         == Some(AfterRelease(p, R.Handler(R.HandlerPhase.Releasing), M.Apply(p.ring.mutex, M.StartRelease)))
  {
    HandlerEnterStep(p);
    PadStep(p);
    SwapStep(p);
    StartStep(p);
    Chain4(Next, p, Quiet(R.HEnter), Locked(p, R.Handler(R.Entered), p.ring.mutex), Pad, AfterPad(p),
           Swap, AfterSwap(p, R.Handler(R.Swapped)), Quiet(R.HStartRelease),
           AfterRelease(p, R.Handler(R.HandlerPhase.Releasing), M.Apply(p.ring.mutex, M.StartRelease)));
  }

  lemma ServeRest(p: Play) returns (steps: seq<Step>)
    requires CanServe(p)
    ensures Exec(Next, AfterRelease(p, R.Handler(R.HandlerPhase.Releasing), M.Apply(p.ring.mutex, M.StartRelease)),
                 steps)
         == Some(Served(p))
    ensures forall s | s in steps :: NoCall(s)
  {
    var m := p.ring.mutex;
    var q := AfterRelease(p, R.Handler(R.HandlerPhase.Releasing), M.Apply(m, M.StartRelease));
    var q1 := AfterRelease(p, R.Handler(R.Leaving(m.waiting > 0)), M.Released(m));
    HandlerFinishStep(p);
    LeaveStep(p);
    if m.waiting > 0 {
      Chain2(Next, q, Quiet(R.HFinishRelease), q1, Leave, Served(p));
      steps := [Quiet(R.HFinishRelease), Leave];
    } else {
      FillStep(p);
      var q2 := Served(p).(ring := Served(p).ring.(lock := R.Handler(R.Leaving(false))), filled := true);
      Chain3(Next, q, Quiet(R.HFinishRelease), q1, Fill, q2, Leave, Served(p));
      steps := [Quiet(R.HFinishRelease), Fill, Leave];
    }
  }

  /** The whole interrupt is a run of the system. */
  lemma Serve(p: Play) returns (steps: seq<Step>)
    requires CanServe(p)
    ensures Exec(Next, p, steps) == Some(Served(p)) && forall s | s in steps :: NoCall(s)
  {
    ServeFirst(p);
    var a := [Quiet(R.HEnter), Pad, Swap, Quiet(R.HStartRelease)];
    var b := ServeRest(p);
    ExecAppend(Next, p, a, Exec(Next, p, a).value, b);
    steps := a + b;
  }

  // The card

  lemma FetchStep(p: Play)
    requires CanFetch(p)
    ensures Exec(Next, p, [Fetch]) == Some(DoFetch(p))
  {
    OneStep(p, Fetch, DoFetch(p));
  }
}
