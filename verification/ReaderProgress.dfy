/**
 Calls of pcm_read go on and return.  What Progress says of the ring holds of schedules of the code: a thread in a
 call can always run its next piece unless it is blocked in the semaphore, between two interrupts there are only so
 many pieces to run, and once there have been as many interrupts as there are bytes to move, all calls have returned.
 */
module ReaderProgress {
  import opened Runs
  import opened Bytes
  import M = CountingMutex
  import R = Ring
  import Rec = Record
  import D = PcmRecord
  import opened RecordRuns
  import opened PcmReaders
  import W = PcmWriters
  import C = WriterProgress
  import Pr = Progress
  import RingRuns

  ghost function Start(size: nat, user: seq<byte>): System { System(Rec.Init(size), map[], user, [], []) }

  lemma {:induction false} AfterBoth(w: System, a: seq<Event>, b: seq<Event>, sound: nat -> byte, rd1: nat, rd2: nat)
    ensures AfterAll(w, a + b, sound, rd1, rd2) == AfterAll(AfterAll(w, a, sound, rd1, rd2), b, sound, rd1, rd2)
  {
    hide After;
    if b == [] {
      assert a + b == a;
    } else {
      var k := |b| - 1;
      assert (a + b)[..|a| + k] == a + b[..k] && (a + b)[|a| + k] == b[k];
      AfterBoth(w, a, b[..k], sound, rd1, rd2);
    }
  }

  lemma AfterOne(w: System, a: seq<Event>, e: Event, sound: nat -> byte, rd1: nat, rd2: nat)
    ensures AfterAll(w, a + [e], sound, rd1, rd2) == After(AfterAll(w, a, sound, rd1, rd2), e, sound, rd1, rd2)
  {
    assert (a + [e])[..|a|] == a;
  }

  // Every world that a schedule reaches is a state of the system

  /** w's device is in a state that a run of the system reaches, and its calls are those the system knows of. */
  ghost predicate Grounded(size: nat, trace: seq<Rec.Step>, w: System, rd1: nat, rd2: nat) {
    && size > 0 && Exec(Rec.Next, Rec.Init(size), trace) == Some(w.p) && w.p.ring.lock.Free?
    && All(w.p, w.calls, |w.user|, rd1, rd2)
  }

  lemma GoSteps(p: Rec.Rec, t: nat, c: W.Call) returns (steps: seq<Rec.Step>)
    requires CanGo(p, t, c)
    ensures Exec(Rec.Next, p, steps) == Some(Gone(p, t, c)) && forall s | s in steps :: Rec.OfThread(s)
    ensures !c.at.Blocked? ==> steps != []
  {
    hide Turn, Landed, Queued, Rec.DoEnd;
    match c.at
    case AtTop =>
      if c.from == c.upto {
        EndStep(p, t);
        steps := [Rec.End(t)];
      } else {
        AddStep(p, t);
        steps := [Rec.Quiet(R.Add(t))];
      }
    case Counted =>
      AcquireStep(p, t);
      steps := [Rec.Quiet(R.Acquire(t))];
    case Blocked => steps := [];
    case InTurn => steps := TurnSteps(p, t);
    case Copying(dest, n) =>
      LandStep(p, t);
      steps := [Rec.Copy(t)];
  }

  /** What a thread's piece leaves alone. */
  predicate Aside(p: Rec.Rec, q: Rec.Rec) {
    && q.captured == p.captured && q.ring.lock == p.ring.lock
    && q.ring.services == p.ring.services && q.ring.handlerReleases == p.ring.handlerReleases
  }

  lemma GoFrame(p: Rec.Rec, t: nat, c: W.Call)
    requires CanGo(p, t, c) && p.ring.lock.Free?
    ensures Aside(p, Gone(p, t, c))
  {
    hide Turn, Landed, Queued, Rec.DoEnd, Aside;
    match c.at
    case AtTop => if c.from == c.upto { EndFrame(p, t); } else { QueueFrame(p, M.Apply(p.ring.mutex, M.Add(t))); }
    case Counted => QueueFrame(p, M.Apply(p.ring.mutex, M.Acquire(t)));
    case Blocked => SameFrame(p);
    case InTurn => TurnFrame(p, t);
    case Copying(dest, n) => LandFrame(p, t);
  }

  lemma SameFrame(p: Rec.Rec)
    ensures Aside(p, p)
  {
  }

  lemma EndFrame(p: Rec.Rec, t: nat)
    requires Rec.Enabled(p, Rec.End(t))
    ensures Aside(p, Rec.DoEnd(p, t))
  {
  }

  lemma QueueFrame(p: Rec.Rec, m: M.Mutex)
    ensures Aside(p, Queued(p, m))
  {
  }

  lemma TurnFrame(p: Rec.Rec, t: nat)
    requires CanTakeTurn(p, t)
    ensures Aside(p, Turn(p, t))
  {
  }

  lemma LandFrame(p: Rec.Rec, t: nat)
    requires CanLand(p, t)
    ensures Aside(p, Landed(p, t))
  {
  }

  lemma PieceSteps(size: nat, trace: seq<Rec.Step>, w: System, t: nat, rd1: nat, rd2: nat)
    returns (steps: seq<Rec.Step>)
    requires Grounded(size, trace, w, rd1, rd2) && t in w.calls
    ensures GoesOn(w, t)
    ensures Exec(Rec.Next, w.p, steps) == Some(WentOn(w, t, rd1, rd2).p) && forall s | s in steps :: Rec.OfThread(s)
    ensures !w.calls[t].at.Blocked? ==> steps != []
    ensures Grounded(size, trace + steps, WentOn(w, t, rd1, rd2), rd1, rd2)
    ensures WentOn(w, t, rd1, rd2).p.ring.handlerReleases == w.p.ring.handlerReleases
  {
    hide Gone, Moved, CanGo, W.Put, Stored;
    var c := w.calls[t];
    assert Matches(w.p, t, c, |w.user|, rd1, rd2);
    GoKnown(size, trace, w.p, t, c, |w.user|, rd1, rd2);
    GoKept(size, trace, w.p, w.calls, |w.user|, rd1, rd2, t);
    StoredLength(w.p, t, c, w.user);
    GoFrame(w.p, t, c);
    steps := GoSteps(w.p, t, c);
    ExecAppend(Rec.Next, Rec.Init(size), trace, w.p, steps);
  }

  lemma StoredLength(p: Rec.Rec, t: nat, c: W.Call, user: seq<byte>)
    requires CanGo(p, t, c) && c.from <= c.upto <= |user|
    ensures |Stored(p, t, c, user)| == |user|
    ensures forall i | 0 <= i < |user| && !(c.from <= i < c.upto) :: Stored(p, t, c, user)[i] == user[i]
  {
  }

  lemma EnterSteps(size: nat, trace: seq<Rec.Step>, w: System, t: nat, from: nat, count: nat, rd1: nat, rd2: nat)
    returns (steps: seq<Rec.Step>)
    requires Grounded(size, trace, w, rd1, rd2) && t !in w.calls && from + count <= |w.user|
    ensures t !in w.p.ring.todo
    ensures Exec(Rec.Next, w.p, steps) == Some(Entered(w, t, from, count).p)
    ensures Grounded(size, trace + steps, Entered(w, t, from, count), rd1, rd2)
    ensures Entered(w, t, from, count).p.ring.handlerReleases == w.p.ring.handlerReleases
  {
    Known(size, trace, w.p);
    BeginLeaves(w.p, w.calls, |w.user|, rd1, rd2, t, from, count);
    BeginStep(w.p, t, count);
    steps := [Rec.Begin(t, count)];
    ExecAppend(Rec.Next, Rec.Init(size), trace, w.p, steps);
  }

  lemma HearSteps(size: nat, trace: seq<Rec.Step>, w: System, b: byte, rd1: nat, rd2: nat)
    returns (steps: seq<Rec.Step>)
    requires Grounded(size, trace, w, rd1, rd2)
    ensures Rec.CanCapture(w.p) && Exec(Rec.Next, w.p, steps) == Some(Rec.DoCapture(w.p, b))
    ensures Rec.DoCapture(w.p, b).ring == w.p.ring
    ensures Grounded(size, trace + steps, w.(p := Rec.DoCapture(w.p, b)), rd1, rd2)
    ensures forall s | s in steps :: Rec.NoCall(s)
  {
    D.Known(size, trace, w.p);
    Rec.CaptureFrame(w.p, b);
    CaptureLeaves(w.p, w.calls, |w.user|, rd1, rd2, b);
    CaptureStep(w.p, b);
    steps := [Rec.Capture(b)];
    ExecAppend(Rec.Next, Rec.Init(size), trace, w.p, steps);
  }

  lemma ServiceSteps(size: nat, trace: seq<Rec.Step>, w: System, rd1: nat, rd2: nat)
    returns (steps: seq<Rec.Step>)
    requires Grounded(size, trace, w, rd1, rd2)
    ensures CanServe(w.p) && Exec(Rec.Next, w.p, steps) == Some(Served(w.p))
    ensures Grounded(size, trace + steps, w.(p := Served(w.p)), rd1, rd2)
    ensures forall s | s in steps :: Rec.NoCall(s)
    ensures Served(w.p).ring.handlerReleases == w.p.ring.handlerReleases + 1
  {
    D.Known(size, trace, w.p);
    ServiceLeaves(w.p, w.calls, |w.user|, rd1, rd2);
    steps := Serve(w.p);
    ExecAppend(Rec.Next, Rec.Init(size), trace, w.p, steps);
  }

  /** What an event does is a run of the system, with new calls only if the event is one. */
  lemma EventSteps(size: nat, trace: seq<Rec.Step>, w: System, e: Event, sound: nat -> byte, rd1: nat, rd2: nat)
    returns (steps: seq<Rec.Step>)
    requires Grounded(size, trace, w, rd1, rd2)
    ensures Exec(Rec.Next, w.p, steps) == Some(After(w, e, sound, rd1, rd2).p)
    ensures Grounded(size, trace + steps, After(w, e, sound, rd1, rd2), rd1, rd2)
    ensures !e.Enter? ==> forall s | s in steps :: Rec.NoCall(s)
    ensures After(w, e, sound, rd1, rd2).p.ring.handlerReleases ==
            w.p.ring.handlerReleases + if e.Interrupt? then 1 else 0
  {
    hide Entered, WentOn, GoesOn, CanServe, Served, Rec.CanCapture, Rec.DoCapture, All;
    steps := [];
    assert trace + [] == trace;
    match e
    case Enter(t, from, count) =>
      if t !in w.calls && from + count <= |w.user| && Fits(w.calls, from, from + count) {
        steps := EnterSteps(size, trace, w, t, from, count, rd1, rd2);
      }
    case Go(t) =>
      if t in w.calls {
        steps := PieceSteps(size, trace, w, t, rd1, rd2);
        forall s | s in steps ensures Rec.NoCall(s) { assert Rec.OfThread(s); }
      }
    case Hear => steps := HearSteps(size, trace, w, sound(|w.p.captured|), rd1, rd2);
    case Interrupt => steps := ServiceSteps(size, trace, w, rd1, rd2);
  }

  predicate NoEnter(schedule: seq<Event>) { forall e | e in schedule :: !e.Enter? }

  lemma {:induction false} ScheduleSteps(size: nat, trace: seq<Rec.Step>, w: System, more: seq<Event>,
                                         sound: nat -> byte, rd1: nat, rd2: nat)
    returns (steps: seq<Rec.Step>)
    requires Grounded(size, trace, w, rd1, rd2)
    ensures var q := AfterAll(w, more, sound, rd1, rd2);
            && Exec(Rec.Next, w.p, steps) == Some(q.p)
            && Grounded(size, trace + steps, q, rd1, rd2)
            && (NoEnter(more) ==> forall s | s in steps :: Rec.NoCall(s))
            && q.p.ring.handlerReleases >= w.p.ring.handlerReleases + if Interrupt in more then 1 else 0
  {
    hide Grounded, After, Rec.NoCall;
    if more == [] {
      steps := [];
      assert trace + [] == trace;
    } else {
      var init, e := more[..|more| - 1], more[|more| - 1];
      assert more == init + [e];
      var a := ScheduleSteps(size, trace, w, init, sound, rd1, rd2);
      var q := AfterAll(w, init, sound, rd1, rd2);
      var b := EventSteps(size, trace + a, q, e, sound, rd1, rd2);
      ExecAppend(Rec.Next, w.p, a, q.p, b);
      assert trace + a + b == trace + (a + b);
      steps := a + b;
    }
  }

  /** Every world that a schedule reaches is grounded. */
  lemma Reached(size: nat, user: seq<byte>, schedule: seq<Event>, sound: nat -> byte, rd1: nat, rd2: nat)
    returns (trace: seq<Rec.Step>)
    requires size > 0
    ensures Grounded(size, trace, AfterAll(Start(size, user), schedule, sound, rd1, rd2), rd1, rd2)
  {
    trace := ScheduleSteps(size, [], Start(size, user), schedule, sound, rd1, rd2);
    assert [] + trace == trace;
  }

  // What happens when an event happens

  /** No event is without its effect: a call that is made is recorded and in progress, the card stores the byte it
      hears where it has come to, and an interrupt is served.  And a thread that goes on stores nothing outside of its
      own buffer. */
  ghost predicate Happened(w: System, e: Event, q: System, sound: nat -> byte) {
    match e
    case Enter(t, from, count) =>
      if t !in w.calls && from + count <= |w.user|
         && forall u | u in w.calls :: w.calls[u].upto <= from || from + count <= w.calls[u].start
      then t in q.calls && q.made == w.made + [W.Request(t, from, count)] && q.done == w.done && q.user == w.user
      else q == w
    case Go(t) =>
      && q.made == w.made && q.p.captured == w.p.captured && q.p.ring.services == w.p.ring.services
      && |q.user| == |w.user|
      && forall i | 0 <= i < |w.user| && !(t in w.calls && w.calls[t].from <= i < w.calls[t].upto) ::
           q.user[i] == w.user[i]
    case Hear =>
      var b := sound(|w.p.captured|);
      && w.p.dmaPos < |Rec.Buffer(w.p, w.p.dmaHalf)| && q.p.captured == w.p.captured + [b]
      && Rec.Buffer(q.p, w.p.dmaHalf) == Rec.Buffer(w.p, w.p.dmaHalf)[w.p.dmaPos := b]
      && Rec.Buffer(q.p, R.Other(w.p.dmaHalf)) == Rec.Buffer(w.p, R.Other(w.p.dmaHalf))
      && q == w.(p := q.p) && q.p.ring == w.p.ring
    case Interrupt => q.p.ring.services == w.p.ring.services + 1 && q == w.(p := q.p)
  }

  lemma EventsHappen(size: nat, user: seq<byte>, schedule: seq<Event>, e: Event, sound: nat -> byte,
                     rd1: nat, rd2: nat)
    requires size > 0
    ensures Happened(AfterAll(Start(size, user), schedule, sound, rd1, rd2), e,
                     AfterAll(Start(size, user), schedule + [e], sound, rd1, rd2), sound)
  {
    hide WentOn, CanGo, Rec.DoCapture;
    var trace := Reached(size, user, schedule, sound, rd1, rd2);
    var w := AfterAll(Start(size, user), schedule, sound, rd1, rd2);
    AfterOne(Start(size, user), schedule, e, sound, rd1, rd2);
    D.Known(size, trace, w.p);
    match e
    case Enter(t, from, count) =>
    case Go(t) => if GoesOn(w, t) { assert Matches(w.p, t, w.calls[t], |w.user|, rd1, rd2); GoRecords(w, t, rd1, rd2); }
    case Hear => HearFrame(w.p, sound(|w.p.captured|));
    case Interrupt =>
  }

  lemma GoRecords(w: System, t: nat, rd1: nat, rd2: nat)
    requires GoesOn(w, t) && w.p.ring.lock.Free? && w.calls[t].from <= w.calls[t].upto
    ensures var q := WentOn(w, t, rd1, rd2);
            && q.made == w.made && q.p.captured == w.p.captured && q.p.ring.services == w.p.ring.services
            && |q.user| == |w.user|
            && forall i | 0 <= i < |w.user| && !(w.calls[t].from <= i < w.calls[t].upto) :: q.user[i] == w.user[i]
  {
    hide Gone, Stored;
    GoFrame(w.p, t, w.calls[t]);
    StoredLength(w.p, t, w.calls[t], w.user);
  }

  lemma HearFrame(p: Rec.Rec, b: byte)
    requires Rec.CanCapture(p)
    ensures var q, h := Rec.DoCapture(p, b), p.dmaHalf;
            && q.captured == p.captured + [b] && q.ring == p.ring
            && Rec.Buffer(q, h) == Rec.Buffer(p, h)[p.dmaPos := b]
            && Rec.Buffer(q, R.Other(h)) == Rec.Buffer(p, R.Other(h))
  {
    Rec.CaptureFrame(p, b);
  }

  /** A thread in a call goes on with its next piece, unless it is blocked in the semaphore. */
  lemma StuckIsBlocked(size: nat, user: seq<byte>, schedule: seq<Event>, t: nat, sound: nat -> byte, rd1: nat, rd2: nat)
    requires size > 0
    requires t in AfterAll(Start(size, user), schedule, sound, rd1, rd2).calls
    ensures var w := AfterAll(Start(size, user), schedule, sound, rd1, rd2);
            After(w, Go(t), sound, rd1, rd2) == w <==> t in w.p.ring.mutex.queue
  {
    var trace := Reached(size, user, schedule, sound, rd1, rd2);
    GroundedStuck(size, trace, AfterAll(Start(size, user), schedule, sound, rd1, rd2), t, sound, rd1, rd2);
  }

  lemma GroundedStuck(size: nat, trace: seq<Rec.Step>, w: System, t: nat, sound: nat -> byte, rd1: nat, rd2: nat)
    requires Grounded(size, trace, w, rd1, rd2) && t in w.calls
    ensures After(w, Go(t), sound, rd1, rd2) == w <==> t in w.p.ring.mutex.queue
  {
    hide Gone;
    var c := w.calls[t];
    assert Matches(w.p, t, c, |w.user|, rd1, rd2);
    GoKnown(size, trace, w.p, t, c, |w.user|, rd1, rd2);
    RingInv(size, trace, w.p);
    var next, q := Moved(w.p, t, c, rd1, rd2), WentOn(w, t, rd1, rd2);
    if t in w.p.ring.mutex.queue {
      StaysPut(w.p, t, c, rd1, rd2);
      assert W.Put(w.calls, t, next) == w.calls;
    } else if next.None? {
      assert t !in q.calls;
    } else {
      assert q.calls[t].at != c.at;
    }
  }

  /** A blocked thread has nothing to do. */
  lemma StaysPut(p: Rec.Rec, t: nat, c: W.Call, rd1: nat, rd2: nat)
    requires CanGo(p, t, c) && c.at.Blocked? && t in p.ring.mutex.queue
    ensures Gone(p, t, c) == p && Moved(p, t, c, rd1, rd2) == Some(c)
  {
  }

  lemma RingInv(size: nat, trace: seq<Rec.Step>, p: Rec.Rec)
    requires size > 0 && Exec(Rec.Next, Rec.Init(size), trace) == Some(p)
    ensures R.Inv(p.ring) && p.ring.size == size
  {
    Rec.InitInv(size);
    Rec.InvRun(Rec.Init(size), trace);
    RingRuns.RecRun(Rec.Init(size), trace);
    R.TotalRun(size, RingRuns.OfRecRun(trace));
  }

  // Until nobody can go on

  /** No thread in a call can go on. */
  ghost predicate Quiet(w: System, sound: nat -> byte, rd1: nat, rd2: nat) {
    forall t | t in w.calls :: After(w, Go(t), sound, rd1, rd2) == w
  }

  lemma QuietIsQuiescent(size: nat, trace: seq<Rec.Step>, w: System, sound: nat -> byte, rd1: nat, rd2: nat)
    requires Grounded(size, trace, w, rd1, rd2) && Quiet(w, sound, rd1, rd2)
    ensures Pr.Quiescent(w.p.ring)
  {
    hide After;
    RingInv(size, trace, w.p);
    forall t | t in w.p.ring.todo ensures t in w.p.ring.mutex.queue {
      assert t in w.calls;
      GroundedStuck(size, trace, w, t, sound, rd1, rd2);
    }
    Pr.AllQueued(w.p.ring);
  }

  /** What the threads in calls can still do before the next interrupt. */
  ghost function Effort(w: System): int { 2 * Pr.Work(w.p.ring) + |C.Sleepers(w.calls)| }

  lemma GoWorks(size: nat, trace: seq<Rec.Step>, w: System, t: nat, sound: nat -> byte, rd1: nat, rd2: nat)
    requires Grounded(size, trace, w, rd1, rd2) && t in w.calls && After(w, Go(t), sound, rd1, rd2) != w
    ensures Effort(After(w, Go(t), sound, rd1, rd2)) < Effort(w)
  {
    hide All, Gone, CanGo, Exec, R.Inv, Pr.Work;
    var steps := PieceSteps(size, trace, w, t, rd1, rd2);
    var c, q := w.calls[t], WentOn(w, t, rd1, rd2);
    RingInv(size, trace, w.p);
    RingRuns.RecRun(w.p, steps);
    RingRuns.ThreadRecRun(steps);
    Pr.StepsEnd(w.p.ring, RingRuns.OfRecRun(steps));
    FewSleepers(w, t, rd1, rd2);
    if c.at.Blocked? { GroundedStuck(size, trace, w, t, sound, rd1, rd2); }
  }

  lemma FewSleepers(w: System, t: nat, rd1: nat, rd2: nat)
    requires GoesOn(w, t)
    ensures var a, b := C.Sleepers(w.calls), C.Sleepers(WentOn(w, t, rd1, rd2).calls);
            && |b| <= |a| + 1
            && (w.calls[t].at.Blocked? && t !in w.p.ring.mutex.queue ==> |b| < |a|)
  {
    var a, b := C.Sleepers(w.calls), C.Sleepers(WentOn(w, t, rd1, rd2).calls);
    assert b <= a + {t};
    M.Subset(b, a + {t});
    if w.calls[t].at.Blocked? && t !in w.p.ring.mutex.queue {
      assert b <= a - {t};
      M.Subset(b, a - {t});
    }
  }

  /** How many of the events are pieces that a thread runs, rather than finds itself blocked. */
  ghost function Moves(w: System, more: seq<Event>, sound: nat -> byte, rd1: nat, rd2: nat): nat {
    if more == [] then 0 else
    var init, e := more[..|more| - 1], more[|more| - 1];
    var q := AfterAll(w, init, sound, rd1, rd2);
    Moves(w, init, sound, rd1, rd2) + if e.Go? && After(q, e, sound, rd1, rd2) != q then 1 else 0
  }

  /** Without an interrupt and without new calls the threads only have so many pieces to run, in whatever order, and
      however much the card records meanwhile. */
  lemma {:induction false} MovesEnd(size: nat, trace: seq<Rec.Step>, w: System, more: seq<Event>, sound: nat -> byte,
                                    rd1: nat, rd2: nat)
    requires Grounded(size, trace, w, rd1, rd2)
    requires forall e | e in more :: e.Go? || e.Hear?
    ensures var q := AfterAll(w, more, sound, rd1, rd2);
            0 <= Effort(q) && Moves(w, more, sound, rd1, rd2) + Effort(q) <= Effort(w)
  {
    hide Grounded, After, Effort;
    if more == [] {
      EffortIsLeft(size, trace, w, rd1, rd2);
    } else {
      var init, e := more[..|more| - 1], more[|more| - 1];
      assert more == init + [e];
      MovesEnd(size, trace, w, init, sound, rd1, rd2);
      var a := ScheduleSteps(size, trace, w, init, sound, rd1, rd2);
      assert e in more;
      EffortStep(size, trace + a, AfterAll(w, init, sound, rd1, rd2), e, sound, rd1, rd2);
    }
  }

  lemma EffortIsLeft(size: nat, trace: seq<Rec.Step>, w: System, rd1: nat, rd2: nat)
    requires Grounded(size, trace, w, rd1, rd2)
    ensures Effort(w) >= 0
  {
    RingInv(size, trace, w.p);
    Pr.WorkIsLeft(w.p.ring);
  }

  lemma EffortStep(size: nat, trace: seq<Rec.Step>, w: System, e: Event, sound: nat -> byte, rd1: nat, rd2: nat)
    requires Grounded(size, trace, w, rd1, rd2) && (e.Go? || e.Hear?)
    ensures var q := After(w, e, sound, rd1, rd2);
            0 <= Effort(q) && Effort(q) + (if e.Go? && q != w then 1 else 0) <= Effort(w)
  {
    hide Grounded, Effort, WentOn, CanGo, Rec.DoCapture;
    var b := EventSteps(size, trace, w, e, sound, rd1, rd2);
    EffortIsLeft(size, trace + b, After(w, e, sound, rd1, rd2), rd1, rd2);
    if e.Go? {
      if After(w, e, sound, rd1, rd2) != w { GoWorks(size, trace, w, e.t, sound, rd1, rd2); }
    } else if Rec.CanCapture(w.p) {
      HearEffort(w, sound(|w.p.captured|));
    }
  }

  lemma HearEffort(w: System, b: byte)
    requires Rec.CanCapture(w.p)
    ensures Effort(w.(p := Rec.DoCapture(w.p, b))) == Effort(w)
  {
    Rec.CaptureFrame(w.p, b);
  }

  /** So the threads can always be run until nobody can go on. */
  lemma {:induction false} Settles(size: nat, trace: seq<Rec.Step>, w: System, sound: nat -> byte, rd1: nat, rd2: nat)
    returns (pieces: seq<Event>)
    requires Grounded(size, trace, w, rd1, rd2)
    ensures (forall e | e in pieces :: e.Go?) && Quiet(AfterAll(w, pieces, sound, rd1, rd2), sound, rd1, rd2)
    decreases Effort(w)
  {
    hide Grounded, After, Effort;
    EffortIsLeft(size, trace, w, rd1, rd2);
    if Quiet(w, sound, rd1, rd2) {
      pieces := [];
    } else {
      var t :| t in w.calls && After(w, Go(t), sound, rd1, rd2) != w;
      var b := EventSteps(size, trace, w, Go(t), sound, rd1, rd2);
      EffortStep(size, trace, w, Go(t), sound, rd1, rd2);
      var rest := Settles(size, trace + b, After(w, Go(t), sound, rd1, rd2), sound, rd1, rd2);
      AfterOne(w, [], Go(t), sound, rd1, rd2);
      assert [] + [Go(t)] == [Go(t)];
      AfterBoth(w, [Go(t)], rest, sound, rd1, rd2);
      pieces := [Go(t)] + rest;
    }
  }

  // Rounds

  /** A round: new calls are not made, the handler is called at least once, and at the end no thread can go on. */
  ghost predicate Round(w: System, round: seq<Event>, sound: nat -> byte, rd1: nat, rd2: nat) {
    NoEnter(round) && Interrupt in round && Quiet(AfterAll(w, round, sound, rd1, rd2), sound, rd1, rd2)
  }

  lemma ToMoveIsTodo(size: nat, trace: seq<Rec.Step>, w: System, rd1: nat, rd2: nat)
    requires Grounded(size, trace, w, rd1, rd2)
    ensures C.ToMove(w.calls) == w.p.ring.todo
  {
    forall t | t in w.calls ensures C.ToMove(w.calls)[t] == w.p.ring.todo[t] {
      assert Matches(w.p, t, w.calls[t], |w.user|, rd1, rd2);
    }
  }

  /** Every round moves at least one byte, as long as a call is in progress. */
  lemma RoundMoves(size: nat, trace: seq<Rec.Step>, w: System, round: seq<Event>, sound: nat -> byte,
                   rd1: nat, rd2: nat)
    requires Grounded(size, trace, w, rd1, rd2) && Quiet(w, sound, rd1, rd2) && Round(w, round, sound, rd1, rd2)
    ensures var q := AfterAll(w, round, sound, rd1, rd2);
            q.calls == map[] || Pr.Sum(C.ToMove(q.calls)) < Pr.Sum(C.ToMove(w.calls))
  {
    hide Quiet, After, Pr.Quiescent, R.Inv, Rec.NoCall;
    var steps := ScheduleSteps(size, trace, w, round, sound, rd1, rd2);
    var q := AfterAll(w, round, sound, rd1, rd2);
    RingInv(size, trace, w.p);
    QuietIsQuiescent(size, trace, w, sound, rd1, rd2);
    QuietIsQuiescent(size, trace + steps, q, sound, rd1, rd2);
    RingRuns.RecRun(w.p, steps);
    RingRuns.NoCallRecRun(steps);
    ToMoveIsTodo(size, trace, w, rd1, rd2);
    ToMoveIsTodo(size, trace + steps, q, rd1, rd2);
    if w.calls == map[] {
      Pr.NobodyRun(w.p.ring, RingRuns.OfRecRun(steps));
    } else {
      Pr.RoundMoves(w.p.ring, RingRuns.OfRecRun(steps), q.p.ring);
    }
  }

  /** Rounds one after the other. */
  ghost predicate Rounds(w: System, rounds: seq<seq<Event>>, sound: nat -> byte, rd1: nat, rd2: nat) {
    rounds != [] ==>
      var init := rounds[..|rounds| - 1];
      && Rounds(w, init, sound, rd1, rd2)
      && Round(AfterAll(w, Flat(init), sound, rd1, rd2), rounds[|rounds| - 1], sound, rd1, rd2)
  }

  lemma {:induction false} RoundsMove(size: nat, trace: seq<Rec.Step>, w: System, rounds: seq<seq<Event>>,
                                      sound: nat -> byte, rd1: nat, rd2: nat)
    requires Grounded(size, trace, w, rd1, rd2) && Quiet(w, sound, rd1, rd2) && Rounds(w, rounds, sound, rd1, rd2)
    ensures var q := AfterAll(w, Flat(rounds), sound, rd1, rd2);
            && Quiet(q, sound, rd1, rd2) && q.made == w.made
            && (q.calls == map[] || Pr.Sum(C.ToMove(q.calls)) + |rounds| <= Pr.Sum(C.ToMove(w.calls)))
  {
    hide Grounded, Quiet, After;
    if rounds != [] {
      var init, round := rounds[..|rounds| - 1], rounds[|rounds| - 1];
      RoundsMove(size, trace, w, init, sound, rd1, rd2);
      var p := AfterAll(w, Flat(init), sound, rd1, rd2);
      var a := ScheduleSteps(size, trace, w, Flat(init), sound, rd1, rd2);
      RoundMoves(size, trace + a, p, round, sound, rd1, rd2);
      AfterBoth(w, Flat(init), round, sound, rd1, rd2);
      MadeStays(p, round, sound, rd1, rd2);
    }
  }

  lemma {:induction false} MadeStays(w: System, more: seq<Event>, sound: nat -> byte, rd1: nat, rd2: nat)
    requires NoEnter(more)
    ensures AfterAll(w, more, sound, rd1, rd2).made == w.made
    ensures w.calls == map[] ==> AfterAll(w, more, sound, rd1, rd2).calls == map[]
  {
    if more != [] {
      MadeStays(w, more[..|more| - 1], sound, rd1, rd2);
      assert more[|more| - 1] in more;
    }
  }

  /** Every call returns, each with what it was for: if no new calls are made, then after as many rounds as there
      were bytes to move no call is in progress, each thread's calls have returned as many bytes as they were asked
      for, and these are, one after the other, its part of the stream, each byte right unless it is spoilt. */
  lemma CallsReturn(size: nat, user: seq<byte>, schedule: seq<Event>, rounds: seq<seq<Event>>, sound: nat -> byte,
                    rd1: nat, rd2: nat)
    requires size > 0
    requires var w := AfterAll(Start(size, user), schedule, sound, rd1, rd2);
             && Quiet(w, sound, rd1, rd2) && Rounds(w, rounds, sound, rd1, rd2)
             && |rounds| >= Pr.Sum(C.ToMove(w.calls))
    ensures var w := AfterAll(Start(size, user), schedule, sound, rd1, rd2);
            var q := AfterAll(Start(size, user), schedule + Flat(rounds), sound, rd1, rd2);
            && q.calls == map[] && q.made == w.made
            && forall t: nat :: Returned(q, t)
  {
    hide After, Quiet, Delivered, Returned;
    var w := AfterAll(Start(size, user), schedule, sound, rd1, rd2);
    var trace := Reached(size, user, schedule, sound, rd1, rd2);
    RoundsMove(size, trace, w, rounds, sound, rd1, rd2);
    AfterBoth(Start(size, user), schedule, Flat(rounds), sound, rd1, rd2);
    var trace' := Reached(size, user, schedule + Flat(rounds), sound, rd1, rd2);
    var q := AfterAll(Start(size, user), schedule + Flat(rounds), sound, rd1, rd2);
    if q.calls != map[] { LeftToMove(size, trace', q, sound, rd1, rd2); }
    forall t: nat ensures Returned(q, t) {
      SystemDelivers(size, trace', user, q, schedule + Flat(rounds), sound, rd1, rd2, t);
      RingInv(size, trace', q.p);
      AllReturned(q, t);
    }
  }

  /** t's calls have all returned. */
  ghost predicate Returned(w: System, t: nat) {
    && Sizes(w.done, t) == W.Lengths(w.made, t)
    && |Given(w.done, t)| == |Project(w.p.stream, t)|
    && forall k: nat | k < |Given(w.done, t)| && (t, k) !in w.p.spoilt ::
         Given(w.done, t)[k] == Project(w.p.stream, t)[k]
  }

  lemma AllReturned(w: System, t: nat)
    requires Delivered(w, t) && w.calls == map[] && w.p.ring.todo == map[]
    requires R.CopyThreads(w.p.ring.copying, w.p.ring.todo, w.p.ring.size)
    ensures Returned(w, t)
  {
    NothingMore(Sizes(w.done, t));
    NothingMore(Given(w.done, t));
    assert Given(w.done, t) + Part(w.calls, t, w.user) + Rec.Coming(w.p.one, w.p.two, w.p.ring.copying, t)
        == Given(w.done, t);
  }

  lemma LeftToMove(size: nat, trace: seq<Rec.Step>, w: System, sound: nat -> byte, rd1: nat, rd2: nat)
    requires Grounded(size, trace, w, rd1, rd2) && Quiet(w, sound, rd1, rd2) && w.calls != map[]
    ensures Pr.Sum(C.ToMove(w.calls)) > 0
  {
    QuietIsQuiescent(size, trace, w, sound, rd1, rd2);
    RingInv(size, trace, w.p);
    ToMoveIsTodo(size, trace, w, rd1, rd2);
    Pr.LeftToMove(w.p.ring);
  }

  /** Any number of rounds can follow. */
  lemma {:induction false} MoreRounds(size: nat, trace: seq<Rec.Step>, w: System, n: nat, sound: nat -> byte,
                                      rd1: nat, rd2: nat)
    returns (rounds: seq<seq<Event>>)
    requires Grounded(size, trace, w, rd1, rd2)
    ensures |rounds| == n && Rounds(w, rounds, sound, rd1, rd2)
  {
    hide Grounded, Quiet, After;
    if n == 0 {
      rounds := [];
    } else {
      var init := MoreRounds(size, trace, w, n - 1, sound, rd1, rd2);
      var a := ScheduleSteps(size, trace, w, Flat(init), sound, rd1, rd2);
      var round := OneRound(size, trace + a, AfterAll(w, Flat(init), sound, rd1, rd2), sound, rd1, rd2);
      rounds := init + [round];
      assert rounds[..n - 1] == init;
    }
  }

  lemma OneRound(size: nat, trace: seq<Rec.Step>, w: System, sound: nat -> byte, rd1: nat, rd2: nat)
    returns (round: seq<Event>)
    requires Grounded(size, trace, w, rd1, rd2)
    ensures Round(w, round, sound, rd1, rd2)
  {
    hide Grounded, Quiet, After;
    var a := ScheduleSteps(size, trace, w, [Interrupt], sound, rd1, rd2);
    var pieces := Settles(size, trace + a, AfterAll(w, [Interrupt], sound, rd1, rd2), sound, rd1, rd2);
    AfterBoth(w, [Interrupt], pieces, sound, rd1, rd2);
    round := [Interrupt] + pieces;
  }

  /** So whatever threads have done so far, all that are in calls can get out of them. */
  lemma CanFinish(size: nat, user: seq<byte>, schedule: seq<Event>, sound: nat -> byte, rd1: nat, rd2: nat)
    returns (more: seq<Event>)
    requires size > 0
    ensures NoEnter(more) && AfterAll(Start(size, user), schedule + more, sound, rd1, rd2).calls == map[]
  {
    hide After, AfterAll, Grounded, Quiet, Rounds, Flat, Returned;
    var trace := Reached(size, user, schedule, sound, rd1, rd2);
    var w := AfterAll(Start(size, user), schedule, sound, rd1, rd2);
    var pieces := Settles(size, trace, w, sound, rd1, rd2);
    var a := ScheduleSteps(size, trace, w, pieces, sound, rd1, rd2);
    var q := AfterAll(w, pieces, sound, rd1, rd2);
    var rounds := MoreRounds(size, trace + a, q, Pr.Sum(C.ToMove(q.calls)), sound, rd1, rd2);
    AfterBoth(Start(size, user), schedule, pieces, sound, rd1, rd2);
    CallsReturn(size, user, schedule + pieces, rounds, sound, rd1, rd2);
    more := pieces + Flat(rounds);
    FlatNoEnter(q, rounds, sound, rd1, rd2);
    assert schedule + more == schedule + pieces + Flat(rounds);
  }

  lemma {:induction false} FlatNoEnter(w: System, rounds: seq<seq<Event>>, sound: nat -> byte, rd1: nat, rd2: nat)
    requires Rounds(w, rounds, sound, rd1, rd2)
    ensures NoEnter(Flat(rounds))
  {
    if rounds != [] { FlatNoEnter(w, rounds[..|rounds| - 1], sound, rd1, rd2); }
  }

  /** The code itself, run to the end of all calls. */
  method RunToEnd(device: D.Device, user: array<byte>, schedule: seq<Event>, rounds: seq<seq<Event>>,
                  sound: nat -> byte)
    returns (calls: map<nat, W.Call>, made: seq<W.Request>, done: seq<Filled>)
    requires device.Valid() && user != device.area && device.model == Rec.Init(device.rdSize)
    requires var w := AfterAll(Start(device.rdSize, user[..]), schedule, sound, device.rd1, device.rd2);
             && Quiet(w, sound, device.rd1, device.rd2) && Rounds(w, rounds, sound, device.rd1, device.rd2)
             && |rounds| >= Pr.Sum(C.ToMove(w.calls))
    modifies device, device.mutex, device.area, user
    ensures calls == map[] && device.Valid()
    ensures forall t: nat :: Returned(System(device.model, calls, user[..], made, done), t)
  {
    CallsReturn(device.rdSize, user[..], schedule, rounds, sound, device.rd1, device.rd2);
    calls, made, done := Run(device, user, schedule + Flat(rounds), sound);
  }
}
