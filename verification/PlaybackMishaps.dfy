/** Runs of the playback system in which somebody is late, and what becomes of the bytes. */
module PlaybackMishaps {
  import opened Runs
  import opened Bytes
  import M = CountingMutex
  import R = Ring
  import opened Playback
  import opened PlaybackRuns

  lemma Then(p0: Play, done: seq<Step>, p: Play, more: seq<Step>, q: Play) returns (steps: seq<Step>)
    requires Exec(Next, p0, done) == Some(p) && Exec(Next, p, more) == Some(q)
    ensures Exec(Next, p0, steps) == Some(q)
  {
    ExecAppend(Next, p0, done, p, more);
    steps := done + more;
  }

  /** t has called pcm_write for the bytes d, counted itself in and taken a token. */
  function Admitted(p: Play, t: nat, d: seq<byte>): Play
    requires t !in p.ring.todo && M.Enabled(p.ring.mutex, M.Add(t))
  {
    Queued(DoBegin(p, t, d), M.Apply(M.Apply(p.ring.mutex, M.Add(t)), M.Acquire(t)))
  }

  /** There is a token for t, and room for what it is going to write, no more and no less. */
  ghost predicate CanArrive(p: Play, t: nat, d: seq<byte>) {
    && p.ring.lock.Free? && p.ring.mutex.release.Idle? && p.ring.mutex.count > 0 && M.Enabled(p.ring.mutex, M.Add(t))
    && t !in p.ring.todo && t !in p.ring.copying && 0 < |d| < INT_LIMIT && p.ring.used + |d| == p.ring.size
  }

  /** It reserves the room. */
  function Arrived(p: Play, t: nat, d: seq<byte>): Play
    requires CanArrive(p, t, d)
  {
    Turn(Admitted(p, t, d), t)
  }

  lemma Arrive(p: Play, t: nat, d: seq<byte>) returns (steps: seq<Step>)
    requires CanArrive(p, t, d)
    ensures Exec(Next, p, steps) == Some(Arrived(p, t, d))
  {
    var p1 := DoBegin(p, t, d);
    var p2 := Queued(p1, M.Apply(p1.ring.mutex, M.Add(t)));
    var p3 := Admitted(p, t, d);
    PlaybackRuns.BeginStep(p, t, d);
    AddStep(p1, t);
    AcquireStep(p2, t);
    var turn := TurnSteps(p3, t);
    steps := Then(p, [Begin(t, d)], p1, [Quiet(R.Add(t))], p2);
    steps := Then(p, steps, p2, [Quiet(R.Acquire(t))], p3);
    steps := Then(p, steps, p3, turn, Arrived(p, t, d));
  }

  lemma ArrivedIs(p: Play, t: nat, d: seq<byte>)
    requires CanArrive(p, t, d)
    ensures var q := Arrived(p, t, d);
            && q == p.(ring := q.ring, data := p.data[t := d], silence := 0, stream := q.stream, epoch := p.epoch + d,
                       supplied := q.supplied)
            && q.ring == p.ring.(mutex := q.ring.mutex, used := p.ring.size, todo := p.ring.todo[t := |d|],
                                 copying := p.ring.copying[t := R.Chunk(t, p.ring.cur, p.ring.used, |d|)],
                                 chunks := q.ring.chunks, kept := q.ring.kept)
            && q.ring.mutex.release.Idle? && q.ring.mutex.count == p.ring.mutex.count - 1
            && q.ring.mutex.waiting == p.ring.mutex.waiting + 1
            && M.Waits(q.ring.mutex, p.ring.mutex.added, p.ring.mutex.queue, p.ring.mutex.held)
  {
    var m := p.ring.mutex;
    assert m.added + {t} - {t} == m.added && m.held + {t} - {t} == m.held;
    var q := Admitted(p, t, d);
    assert q.data[t][..|d|] == d;
    assert !Releases(q, t) && BlockSize(q, t) == |d|;
  }

  lemma ServedIs(p: Play)
    requires CanServe(p)
    ensures var q := Served(p);
            && q == p.(ring := q.ring, one := q.one, two := q.two, silence := q.silence, calm := q.calm,
                       handed := p.handed + [Given(p)], epoch := [], early := [], unserved := false,
                       clean := R.NothingTo(p.ring.copying, R.Other(p.ring.cur)), astray := p.astray || !p.unserved)
            && q.ring == p.ring.(mutex := M.Released(p.ring.mutex), cur := R.Other(p.ring.cur), used := 0,
                                 total := q.ring.total, chunks := [], closed := q.ring.closed,
                                 services := q.ring.services, handlerReleases := q.ring.handlerReleases)
            && q.ring.mutex.release.Idle? && |q.one| == |q.two| == p.ring.size
            && var fills := p.ring.mutex.waiting <= 0 && p.silence < 2 * p.ring.size;
               && q.silence == (if fills then p.silence + p.ring.size else p.silence)
               && q.calm == (if fills then Calm(p.calm, R.Other(p.ring.cur), p.ring.copying) else p.calm)
  {
  }

  /** With halves of one byte, every byte the card plays ends a half. */
  lemma FetchedIs(p: Play)
    requires CanFetch(p) && p.ring.size == 1
    ensures var q := DoFetch(p);
            q == p.(output := q.output, early := q.early, dmaPos := 0, dmaHalf := R.Other(p.dmaHalf), unserved := true,
                    astray := p.astray || p.unserved)
  {
  }

  lemma LandedIs(p: Play, t: nat)
    requires CanLand(p, t)
    ensures var q, c := Landed(p, t), p.ring.copying[t];
            && q == p.(ring := q.ring, one := q.one, two := q.two, data := q.data)
            && q.ring == p.ring.(todo := q.ring.todo, copying := p.ring.copying - {t})
            && |q.one| == |q.two| == |p.one|
            && forall u | u in p.data && u in p.ring.todo && u != t ::
                 u in q.data && u in q.ring.todo && q.data[u] == p.data[u] && q.ring.todo[u] == p.ring.todo[u]
  {
  }

  /** A whole half of one byte is written over. */
  lemma WholeHalfLanded(p: Play, t: nat, b: byte)
    requires CanLand(p, t) && p.ring.copying[t] == R.Chunk(t, R.Two, 0, 1) && p.data[t] == [b] && |p.two| == 1
    ensures Landed(p, t).two == [b]
  {
    assert p.data[t][..1] == [b];
  }

  /** Nobody is in the mutex or waits for it; so many have counted themselves in. */
  ghost predicate Vacant(m: M.Mutex, count: nat, waiting: int) {
    m.release.Idle? && m.count == count && m.waiting == waiting && M.Waits(m, {}, [], {})
  }

  /** Thread 7 has one byte, a 5, in flight to half Two of a ring with halves of one byte. */
  ghost predicate InFlight(p: Play) {
    && p.ring.lock.Free? && !p.padded && !p.filled && p.ring.size == |p.one| == |p.two| == 1 && p.ring.used <= 1
    && p.ring.copying.Keys == {7} && p.ring.copying[7] == R.Chunk(7, R.Two, 0, 1)
    && 7 in p.ring.todo && p.ring.todo[7] == 1 && 7 in p.data && p.data[7] == [5]
    && !p.astray && p.dmaPos == 0
  }

  lemma HeldUpRun() returns (steps: seq<Step>, p: Play)
    ensures Exec(Next, Init(1), steps) == Some(p) && InFlight(p) && Vacant(p.ring.mutex, 0, 1)
    ensures p.ring.cur == R.Two && p.ring.used == 1 && p.two == [0] && p.epoch == [5] && p.clean && |p.handed| == 1
    ensures !p.unserved && p.ring.todo.Keys == {7} && p.silence == 0
  {
    hide Arrived;
    ArrivedIs(Init(1), 7, [5]);
    steps := Arrive(Init(1), 7, [5]);
    p := Arrived(Init(1), 7, [5]);
  }

  /** The next half ends, and its interrupt is served. */
  lemma Tick(p0: Play, done: seq<Step>, p: Play) returns (steps: seq<Step>, q: Play)
    requires Exec(Next, p0, done) == Some(p)
    requires p.ring.lock.Free? && p.ring.mutex.release.Idle? && !p.padded && !p.filled && !p.astray && !p.unserved
    requires p.ring.size == |p.one| == |p.two| == 1 && p.ring.used <= 1 && p.dmaPos == 0
    ensures Exec(Next, p0, steps) == Some(q)
    ensures q == p.(ring := q.ring, one := q.one, two := q.two, silence := q.silence, calm := q.calm, epoch := [],
                    handed := q.handed, output := q.output, dmaHalf := q.dmaHalf, early := [],
                    clean := R.NothingTo(p.ring.copying, R.Other(p.ring.cur)))
    ensures q.ring == p.ring.(mutex := M.Released(p.ring.mutex), cur := R.Other(p.ring.cur), used := 0,
                              total := q.ring.total, chunks := [], closed := q.ring.closed,
                              services := q.ring.services, handlerReleases := q.ring.handlerReleases)
    ensures |q.one| == |q.two| == 1 && q.ring.mutex.release.Idle? && |q.handed| == |p.handed| + 1
    ensures var fills := p.ring.mutex.waiting <= 0 && p.silence < 2;
            && q.silence == (if fills then p.silence + 1 else p.silence)
            && q.calm == (if fills then Calm(p.calm, R.Other(p.ring.cur), p.ring.copying) else p.calm)
    ensures var h := q.handed[|p.handed|];
            && h.bytes == p.epoch && h.contents == Back(p) && h.clean == p.clean
            && h.landed == R.NothingTo(p.ring.copying, p.ring.cur)
  {
    PlaybackRuns.FetchStep(p);
    FetchedIs(p);
    var p1 := DoFetch(p);
    steps := Then(p0, done, p, [Fetch], p1);
    var service := Serve(p1);
    q := Served(p1);
    ServedIs(p1);
    steps := Then(p0, steps, p1, service, q);
  }

  /** A writer has reserved its byte and been held up before its memcpy, for nothing keeps the interrupt
      away there: the half is handed over with the old byte in place of the one that was accepted. */
  lemma LateCopyMissesItsHalf() returns (steps: seq<Step>, p: Play)
    ensures Exec(Next, Init(1), steps) == Some(p) && !p.astray
    ensures |p.handed| == 2 && p.handed[1].clean && !p.handed[1].landed
    ensures p.handed[1].bytes == [5] && p.handed[1].contents == [0]
  {
    var p0;
    steps, p0 := HeldUpRun();
    steps, p := Tick(Init(1), steps, p0);
    assert 7 in p0.ring.copying;
  }

  lemma ReopenedRun() returns (steps: seq<Step>, p: Play)
    ensures Exec(Next, Init(1), steps) == Some(p) && InFlight(p) && Vacant(p.ring.mutex, 1, 0)
    ensures p.ring.cur == R.Two && p.ring.used == 0 && p.epoch == [] && !p.clean && |p.handed| == 3 && !p.unserved
    ensures p.ring.todo.Keys == {7} && p.silence == 1 && R.Two !in p.calm
  {
    var p0, p1;
    steps, p0 := HeldUpRun();
    steps, p1 := Tick(Init(1), steps, p0);
    steps, p := Tick(Init(1), steps, p1);
    assert 7 in p1.ring.copying && p1.ring.copying[7].half == R.Two;
  }

  /** Thread 8 writes a 9 into the half that is open again. */
  lemma RewrittenRun() returns (steps: seq<Step>, p: Play)
    ensures Exec(Next, Init(1), steps) == Some(p) && InFlight(p) && p.ring.mutex.release.Idle?
    ensures p.ring.cur == R.Two && p.epoch == [9] && !p.clean && |p.handed| == 3 && !p.unserved
  {
    hide Arrived, Landed;
    var p0;
    steps, p0 := ReopenedRun();
    ArrivedIs(p0, 8, [9]);
    var more := Arrive(p0, 8, [9]);
    var p1 := Arrived(p0, 8, [9]);
    steps := Then(Init(1), steps, p0, more, p1);
    LandStep(p1, 8);
    LandedIs(p1, 8);
    p := Landed(p1, 8);
    steps := Then(Init(1), steps, p1, [Copy(8)], p);
  }

  /** It is held up still longer, until the half is open again, and then writes over a byte that another
      thread has put there since. */
  lemma StaleCopySpoilsALaterHalf() returns (steps: seq<Step>, p: Play)
    ensures Exec(Next, Init(1), steps) == Some(p) && !p.astray
    ensures |p.handed| == 4 && !p.handed[3].clean && p.handed[3].landed
    ensures p.handed[3].bytes == [9] && p.handed[3].contents == [5]
  {
    hide Landed;
    var p2;
    steps, p2 := RewrittenRun();
    LandStep(p2, 7);
    LandedIs(p2, 7);
    WholeHalfLanded(p2, 7, 5);
    var p3 := Landed(p2, 7);
    steps := Then(Init(1), steps, p2, [Copy(7)], p3);
    steps, p := Tick(Init(1), steps, p3);
  }

  /** Or it writes into a half that has been silenced meanwhile, and counted as silent. */
  lemma LateCopyBreaksSilence() returns (steps: seq<Step>, p: Play)
    ensures Exec(Next, Init(1), steps) == Some(p) && !p.astray
    ensures p.silence == 2 * p.ring.size && M.Waits(p.ring.mutex, {}, [], {}) && R.Two !in p.calm && p.two == [5]
  {
    var p0, p1;
    hide Landed;
    steps, p0 := ReopenedRun();
    steps, p1 := Tick(Init(1), steps, p0);
    LandStep(p1, 7);
    LandedIs(p1, 7);
    WholeHalfLanded(p1, 7, 5);
    p := Landed(p1, 7);
    steps := Then(Init(1), steps, p1, [Copy(7)], p);
  }

  /** Two halves end before the handler comes: from then on the card plays the half that writers fill,
      without an interrupt waiting. */
  lemma LateServiceMeetsDma() returns (steps: seq<Step>, p: Play)
    ensures Exec(Next, Init(1), steps) == Some(p) && p.astray
    ensures !p.unserved && p.dmaHalf == p.ring.cur
  {
    var p0 := Init(1);
    PlaybackRuns.FetchStep(p0);
    FetchedIs(p0);
    var p1 := DoFetch(p0);
    PlaybackRuns.FetchStep(p1);
    FetchedIs(p1);
    var p2 := DoFetch(p1);
    steps := Then(p0, [Fetch], p1, [Fetch], p2);
    var service := Serve(p2);
    p := Served(p2);
    ServedIs(p2);
    steps := Then(p0, steps, p2, service, p);
  }

  /** So it does if the handler is called although no half has ended. */
  lemma SpuriousServiceMeetsDma() returns (steps: seq<Step>, p: Play)
    ensures Exec(Next, Init(1), steps) == Some(p) && p.astray
    ensures !p.unserved && p.dmaHalf == p.ring.cur
  {
    p := Served(Init(1));
    ServedIs(Init(1));
    steps := Serve(Init(1));
  }
}
