/** Runs of the record system in which somebody is late, and what readers get then. */
module RecordMishaps {
  import opened Runs
  import opened Bytes
  import M = CountingMutex
  import R = Ring
  import opened Record
  import opened RecordRuns

  lemma Then(p0: Rec, done: seq<Step>, p: Rec, more: seq<Step>, q: Rec) returns (steps: seq<Step>)
    requires Exec(Next, p0, done) == Some(p) && Exec(Next, p, more) == Some(q)
    ensures Exec(Next, p0, steps) == Some(q)
  {
    ExecAppend(Next, p0, done, p, more);
    steps := done + more;
  }

  /** t has called pcm_read for n bytes, counted itself in and taken a token. */
  function Admitted(p: Rec, t: nat, n: nat): Rec
    requires t !in p.ring.todo && M.Enabled(p.ring.mutex, M.Add(t))
  {
    Queued(DoBegin(p, t, n), M.Apply(M.Apply(p.ring.mutex, M.Add(t)), M.Acquire(t)))
  }

  /** There is a token for t, and as much to read as it wants, no more and no less. */
  ghost predicate CanArrive(p: Rec, t: nat, n: nat) {
    && p.ring.lock.Free? && p.ring.mutex.release.Idle? && p.ring.mutex.count > 0 && M.Enabled(p.ring.mutex, M.Add(t))
    && t !in p.ring.todo && t !in p.ring.copying && 0 < n < INT_LIMIT && p.ring.used + n == p.ring.size
    && p.ring.size == |p.one| == |p.two|
  }

  /** It reserves it. */
  function Arrived(p: Rec, t: nat, n: nat): Rec
    requires CanArrive(p, t, n)
  {
    Turn(Admitted(p, t, n), t)
  }

  lemma Arrive(p: Rec, t: nat, n: nat) returns (steps: seq<Step>)
    requires CanArrive(p, t, n)
    ensures Exec(Next, p, steps) == Some(Arrived(p, t, n))
  {
    var p1 := DoBegin(p, t, n);
    var p2 := Queued(p1, M.Apply(p1.ring.mutex, M.Add(t)));
    var p3 := Admitted(p, t, n);
    RecordRuns.BeginStep(p, t, n);
    AddStep(p1, t);
    AcquireStep(p2, t);
    var turn := TurnSteps(p3, t);
    steps := Then(p, [Begin(t, n)], p1, [Quiet(R.Add(t))], p2);
    steps := Then(p, steps, p2, [Quiet(R.Acquire(t))], p3);
    steps := Then(p, steps, p3, turn, Arrived(p, t, n));
  }

  lemma ArrivedIs(p: Rec, t: nat, n: nat)
    requires CanArrive(p, t, n)
    ensures var q := Arrived(p, t, n);
            && q == p.(ring := q.ring, stream := p.stream + Tag(t, Back(p)[p.ring.used..]), asked := q.asked,
                       overtaken := p.overtaken + TooLate(|p.stream|, p.ring.used, n, p.over))
            && q.ring == p.ring.(mutex := q.ring.mutex, used := p.ring.size, todo := p.ring.todo[t := n],
                                 copying := p.ring.copying[t := R.Chunk(t, p.ring.cur, p.ring.used, n)],
                                 chunks := q.ring.chunks, kept := q.ring.kept)
            && q.ring.mutex.release.Idle?
  {
    var q := Admitted(p, t, n);
    assert !Releases(q, t) && BlockSize(q, t) == n;
  }

  /** A reader arrives and reserves. */
  lemma Reserves(p0: Rec, done: seq<Step>, p: Rec, t: nat, n: nat) returns (steps: seq<Step>, q: Rec)
    requires Exec(Next, p0, done) == Some(p) && CanArrive(p, t, n)
    ensures Exec(Next, p0, steps) == Some(q)
    ensures q == p.(ring := q.ring, stream := p.stream + Tag(t, Back(p)[p.ring.used..]), asked := q.asked,
                    overtaken := p.overtaken + TooLate(|p.stream|, p.ring.used, n, p.over))
    ensures q.ring == p.ring.(mutex := q.ring.mutex, used := p.ring.size, todo := p.ring.todo[t := n],
                              copying := p.ring.copying[t := R.Chunk(t, p.ring.cur, p.ring.used, n)],
                              chunks := q.ring.chunks, kept := q.ring.kept)
    ensures q.ring.mutex.release.Idle?
  {
    hide Arrived;
    ArrivedIs(p, t, n);
    var more := Arrive(p, t, n);
    q := Arrived(p, t, n);
    steps := Then(p0, done, p, more, q);
  }

  /** The interrupt is served. */
  lemma Serves(p0: Rec, done: seq<Step>, p: Rec) returns (steps: seq<Step>, q: Rec)
    requires Exec(Next, p0, done) == Some(p) && CanServe(p)
    ensures Exec(Next, p0, steps) == Some(q)
    ensures q == p.(ring := q.ring, unserved := false, consumed := p.consumed + [Consumed(p.given, p.ring.used)],
                    given := Front(p), over := {}, astray := p.astray || !p.unserved)
    ensures q.ring == p.ring.(mutex := M.Released(p.ring.mutex), cur := R.Other(p.ring.cur), used := 0,
                              total := q.ring.total, chunks := [], closed := q.ring.closed,
                              services := q.ring.services, handlerReleases := q.ring.handlerReleases)
    ensures q.ring.mutex.release.Idle?
  {
    var service := Serve(p);
    q := Served(p);
    steps := Then(p0, done, p, service, q);
  }

  /** The card stores a byte. */
  lemma Sounds(p0: Rec, done: seq<Step>, p: Rec, b: byte) returns (steps: seq<Step>, q: Rec)
    requires Exec(Next, p0, done) == Some(p) && CanCapture(p)
    ensures Exec(Next, p0, steps) == Some(q)
    ensures q == p.(one := q.one, two := q.two, captured := p.captured + [b], dmaHalf := q.dmaHalf, dmaPos := q.dmaPos,
                    unserved := q.unserved, over := q.over, spoilt := q.spoilt, astray := q.astray)
    ensures q.dmaPos == if p.dmaPos + 1 < p.ring.size then p.dmaPos + 1 else 0
    ensures q.dmaHalf == if p.dmaPos + 1 < p.ring.size then p.dmaHalf else R.Other(p.dmaHalf)
    ensures q.unserved == (p.unserved || p.dmaPos + 1 >= p.ring.size)
    ensures q.astray == (p.astray || (p.unserved && p.dmaPos + 1 >= p.ring.size))
    ensures StoredIn(p.dmaHalf, p.dmaPos, p.one, p.two, b, q.one, q.two)
    ensures q.spoilt == p.spoilt + Hit(p.ring.copying, p.got, p.dmaHalf, p.dmaPos)
    ensures q.over == p.over + if p.dmaHalf == p.ring.cur then {p.dmaPos} else {}
  {
    RecordRuns.CaptureStep(p, b);
    CaptureFrame(p, b);
    q := DoCapture(p, b);
    steps := Then(p0, done, p, [Capture(b)], q);
  }

  /** Thread 7 is held up between its reservation of one byte, a 0, and its memcpy. */
  ghost predicate HeldUp(p: Rec) {
    && p.ring.size == |p.one| == |p.two| == 1 && p.ring.lock.Free? && p.ring.mutex.release.Idle? && !p.astray
    && p.ring.copying == map[7 := R.Chunk(7, R.Two, 0, 1)] && 7 in p.ring.todo && p.ring.todo[7] == 1
    && p.stream == [(7, 0)] && p.got == map[] && p.dmaPos == 0
  }

  lemma HeldUpRun() returns (steps: seq<Step>, p: Rec)
    ensures Exec(Next, Init(1), steps) == Some(p) && HeldUp(p) && p.dmaHalf == R.One && !p.unserved
  {
    steps, p := Reserves(Init(1), [], Init(1), 7, 1);
  }

  /** A reader is held up between its reservation and its memcpy until the card records into that half
      again: it is given the new byte in place of the one it reserved. */
  lemma LateCopyGetsNewByte() returns (steps: seq<Step>, p: Rec)
    ensures Exec(Next, Init(1), steps) == Some(p) && !p.astray
    ensures p.stream == [(7, 0)] && Got(p.got, 7) == [2] && (7, 0) in p.spoilt
  {
    var p1, p2, p3, p4;
    steps, p1 := HeldUpRun();
    steps, p2 := Sounds(Init(1), steps, p1, 1);
    steps, p3 := Serves(Init(1), steps, p2);
    steps, p4 := Sounds(Init(1), steps, p3, 2);
    HitHas(p3.ring.copying, p3.got, R.Two, 0, 7);
    LandStep(p4, 7);
    p := Landed(p4, 7);
    steps := Then(Init(1), steps, p4, [Copy(7)], p);
    assert InHand(p4, 7) == [2];
  }

  lemma TwoHalvesRun() returns (steps: seq<Step>, p: Rec)
    ensures Exec(Next, Init(2), steps) == Some(p) && !p.astray
    ensures p.ring == R.Init(2) && p.given == [0, 0] && p.two == [3, 0] && |p.one| == 2 && p.over == {0}
    ensures p.stream == [] && p.overtaken == {}
  {
    var p0 := Init(2);
    var p1, p2;
    steps, p1 := Sounds(p0, [], p0, 1);
    steps, p2 := Sounds(p0, steps, p1, 2);
    steps, p := Sounds(p0, steps, p2, 3);
  }

  /** The handler is late, and the card has begun to record into the half that readers still read from: a
      reader reserves a new byte before an old one. */
  lemma LateServiceMixesHalves() returns (steps: seq<Step>, p: Rec)
    ensures Exec(Next, Init(2), steps) == Some(p) && !p.astray
    ensures p.given == [0, 0] && p.stream == [(7, 3), (7, 0)] && p.overtaken == {0}
  {
    var p3;
    steps, p3 := TwoHalvesRun();
    assert Back(p3)[0..] == [3, 0];
    steps, p := Reserves(Init(2), steps, p3, 7, 2);
    assert IsOver(0, 0, 0, {0});
    assert forall k | k in TooLate(0, 0, 2, {0}) :: IsOver(k, 0, 0, {0});
  }

  /** Two halves end before the handler comes: from then on the card records into the half that readers
      read from, without an interrupt waiting. */
  lemma LateServiceMeetsDma() returns (steps: seq<Step>, p: Rec)
    ensures Exec(Next, Init(1), steps) == Some(p) && p.astray
    ensures !p.unserved && p.dmaHalf == p.ring.cur
  {
    var p1, p2;
    steps, p1 := Sounds(Init(1), [], Init(1), 1);
    steps, p2 := Sounds(Init(1), steps, p1, 2);
    steps, p := Serves(Init(1), steps, p2);
  }
}
