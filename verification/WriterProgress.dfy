/**
 Calls of pcm_write go on and return.  What Progress says of the ring holds of schedules of the code: a thread in a
 call can always run its next piece unless it is blocked in the semaphore, between two interrupts there are only so
 many pieces to run, and once there have been as many interrupts as there are bytes to move, all calls have returned.
 */
module WriterProgress {
  import opened Runs
  import opened Bytes
  import M = CountingMutex
  import R = Ring
  import P = Playback
  import D = PcmPlayback
  import opened PlaybackRuns
  import opened PcmWriters
  import Pr = Progress
  import RingRuns

  ghost function Start(size: nat): World { World(P.Init(size), map[], [], []) }

  lemma {:induction false} AfterBoth(w: World, a: seq<Event>, b: seq<Event>, user: seq<byte>, wr1: nat, wr2: nat)
    ensures AfterAll(w, a + b, user, wr1, wr2) == AfterAll(AfterAll(w, a, user, wr1, wr2), b, user, wr1, wr2)
  {
    hide After;
    if b == [] {
      assert a + b == a;
    } else {
      var k := |b| - 1;
      assert (a + b)[..|a| + k] == a + b[..k] && (a + b)[|a| + k] == b[k];
      AfterBoth(w, a, b[..k], user, wr1, wr2);
    }
  }

  lemma AfterOne(w: World, a: seq<Event>, e: Event, user: seq<byte>, wr1: nat, wr2: nat)
    ensures AfterAll(w, a + [e], user, wr1, wr2) == After(AfterAll(w, a, user, wr1, wr2), e, user, wr1, wr2)
  {
    assert (a + [e])[..|a|] == a;
  }

  // Every world that a schedule reaches is a state of the system

  /** w's device is in a state that a run of the system reaches, and its calls are those the system knows of. */
  ghost predicate Grounded(size: nat, trace: seq<P.Step>, w: World, user: seq<byte>, wr1: nat, wr2: nat) {
    && size > 0 && Exec(P.Next, P.Init(size), trace) == Some(w.p) && w.p.ring.lock.Free?
    && All(w.p, w.calls, user, wr1, wr2)
  }

  lemma GoSteps(p: P.Play, t: nat, c: Call) returns (steps: seq<P.Step>)
    requires CanGo(p, t, c)
    ensures Exec(P.Next, p, steps) == Some(Gone(p, t, c)) && forall s | s in steps :: P.OfThread(s)
    ensures !c.at.Blocked? ==> steps != []
  {
    hide Turn, Landed, Queued, P.DoEnd;
    match c.at
    case AtTop =>
      if c.from == c.upto {
        EndStep(p, t);
        steps := [P.End(t)];
      } else {
        AddStep(p, t);
        steps := [P.Quiet(R.Add(t))];
      }
    case Counted =>
      AcquireStep(p, t);
      steps := [P.Quiet(R.Acquire(t))];
    case Blocked => steps := [];
    case InTurn => steps := TurnSteps(p, t);
    case Copying(dest, n) =>
      LandStep(p, t);
      steps := [P.Copy(t)];
  }

  /** What a thread's piece leaves alone. */
  predicate Aside(p: P.Play, q: P.Play) {
    && q.output == p.output && q.ring.lock == p.ring.lock
    && q.ring.services == p.ring.services && q.ring.handlerReleases == p.ring.handlerReleases
  }

  lemma GoFrame(p: P.Play, t: nat, c: Call)
    requires CanGo(p, t, c) && p.ring.lock.Free?
    ensures Aside(p, Gone(p, t, c))
  {
    hide Turn, Landed, Queued, P.DoEnd, Aside;
    match c.at
    case AtTop => if c.from == c.upto { EndFrame(p, t); } else { QueueFrame(p, M.Apply(p.ring.mutex, M.Add(t))); }
    case Counted => QueueFrame(p, M.Apply(p.ring.mutex, M.Acquire(t)));
    case Blocked => SameFrame(p);
    case InTurn => TurnFrame(p, t);
    case Copying(dest, n) => LandFrame(p, t);
  }

  lemma SameFrame(p: P.Play)
    ensures Aside(p, p)
  {
  }

  lemma EndFrame(p: P.Play, t: nat)
    requires P.Enabled(p, P.End(t))
    ensures Aside(p, P.DoEnd(p, t))
  {
  }

  lemma QueueFrame(p: P.Play, m: M.Mutex)
    ensures Aside(p, Queued(p, m))
  {
  }

  lemma TurnFrame(p: P.Play, t: nat)
    requires CanTakeTurn(p, t)
    ensures Aside(p, Turn(p, t))
  {
  }

  lemma LandFrame(p: P.Play, t: nat)
    requires CanLand(p, t)
    ensures Aside(p, Landed(p, t))
  {
  }

  lemma PieceSteps(size: nat, trace: seq<P.Step>, w: World, t: nat, user: seq<byte>, wr1: nat, wr2: nat)
    returns (steps: seq<P.Step>)
    requires Grounded(size, trace, w, user, wr1, wr2) && t in w.calls
    ensures CanGo(w.p, t, w.calls[t])
    ensures Exec(P.Next, w.p, steps) == Some(WentOn(w, t, wr1, wr2).p) && forall s | s in steps :: P.OfThread(s)
    ensures !w.calls[t].at.Blocked? ==> steps != []
    ensures Grounded(size, trace + steps, WentOn(w, t, wr1, wr2), user, wr1, wr2)
    ensures WentOn(w, t, wr1, wr2).p.ring.handlerReleases == w.p.ring.handlerReleases
  {
    hide Gone, Moved, CanGo, Put, Matches;
    var c := w.calls[t];
    GoKnown(size, trace, w.p, t, c, user, wr1, wr2);
    GoKept(size, trace, w.p, w.calls, user, wr1, wr2, t);
    GoFrame(w.p, t, c);
    steps := GoSteps(w.p, t, c);
    ExecAppend(P.Next, P.Init(size), trace, w.p, steps);
  }

  lemma EnterSteps(size: nat, trace: seq<P.Step>, w: World, t: nat, from: nat, count: nat, user: seq<byte>,
                   wr1: nat, wr2: nat)
    returns (steps: seq<P.Step>)
    requires Grounded(size, trace, w, user, wr1, wr2) && t !in w.calls && from + count <= |user|
    ensures t !in w.p.ring.todo
    ensures Exec(P.Next, w.p, steps) == Some(Entered(w, t, from, count, user).p)
    ensures Grounded(size, trace + steps, Entered(w, t, from, count, user), user, wr1, wr2)
    ensures Entered(w, t, from, count, user).p.ring.handlerReleases == w.p.ring.handlerReleases
  {
    Known(size, trace, w.p);
    BeginLeaves(w.p, w.calls, user, wr1, wr2, t, from, count);
    BeginStep(w.p, t, user[from..from + count]);
    steps := [P.Begin(t, user[from..from + count])];
    ExecAppend(P.Next, P.Init(size), trace, w.p, steps);
  }

  lemma PlaySteps(size: nat, trace: seq<P.Step>, w: World, user: seq<byte>, wr1: nat, wr2: nat)
    returns (steps: seq<P.Step>)
    requires Grounded(size, trace, w, user, wr1, wr2)
    ensures P.CanFetch(w.p) && Exec(P.Next, w.p, steps) == Some(P.DoFetch(w.p)) && P.DoFetch(w.p).ring == w.p.ring
    ensures Grounded(size, trace + steps, w.(p := P.DoFetch(w.p)), user, wr1, wr2)
    ensures forall s | s in steps :: P.NoCall(s)
  {
    D.Known(size, trace, w.p);
    P.FetchFrame(w.p);
    FetchLeaves(w.p, w.calls, user, wr1, wr2);
    FetchStep(w.p);
    steps := [P.Fetch];
    ExecAppend(P.Next, P.Init(size), trace, w.p, steps);
  }

  lemma ServiceSteps(size: nat, trace: seq<P.Step>, w: World, user: seq<byte>, wr1: nat, wr2: nat)
    returns (steps: seq<P.Step>)
    requires Grounded(size, trace, w, user, wr1, wr2)
    ensures CanServe(w.p) && Exec(P.Next, w.p, steps) == Some(Served(w.p))
    ensures Grounded(size, trace + steps, w.(p := Served(w.p)), user, wr1, wr2)
    ensures forall s | s in steps :: P.NoCall(s)
    ensures Served(w.p).ring.handlerReleases == w.p.ring.handlerReleases + 1
  {
    D.Known(size, trace, w.p);
    ServiceLeaves(w.p, w.calls, user, wr1, wr2);
    steps := Serve(w.p);
    ExecAppend(P.Next, P.Init(size), trace, w.p, steps);
  }

  /** What an event does is a run of the system, with new calls only if the event is one. */
  lemma EventSteps(size: nat, trace: seq<P.Step>, w: World, e: Event, user: seq<byte>, wr1: nat, wr2: nat)
    returns (steps: seq<P.Step>)
    requires Grounded(size, trace, w, user, wr1, wr2)
    ensures Exec(P.Next, w.p, steps) == Some(After(w, e, user, wr1, wr2).p)
    ensures Grounded(size, trace + steps, After(w, e, user, wr1, wr2), user, wr1, wr2)
    ensures !e.Enter? ==> forall s | s in steps :: P.NoCall(s)
    ensures After(w, e, user, wr1, wr2).p.ring.handlerReleases ==
            w.p.ring.handlerReleases + if e.Interrupt? then 1 else 0
  {
    hide Entered, WentOn, Gone, CanGo, CanServe, Served, P.CanFetch, P.DoFetch, All;
    steps := [];
    assert trace + [] == trace;
    match e
    case Enter(t, from, count) =>
      if t !in w.calls && from + count <= |user| {
        steps := EnterSteps(size, trace, w, t, from, count, user, wr1, wr2);
      }
    case Go(t) =>
      if t in w.calls {
        steps := PieceSteps(size, trace, w, t, user, wr1, wr2);
        forall s | s in steps ensures P.NoCall(s) { assert P.OfThread(s); }
      }
    case Play => steps := PlaySteps(size, trace, w, user, wr1, wr2);
    case Interrupt => steps := ServiceSteps(size, trace, w, user, wr1, wr2);
  }

  predicate NoEnter(schedule: seq<Event>) { forall e | e in schedule :: !e.Enter? }

  lemma {:induction false} ScheduleSteps(size: nat, trace: seq<P.Step>, w: World, more: seq<Event>, user: seq<byte>,
                                         wr1: nat, wr2: nat)
    returns (steps: seq<P.Step>)
    requires Grounded(size, trace, w, user, wr1, wr2)
    ensures var q := AfterAll(w, more, user, wr1, wr2);
            && Exec(P.Next, w.p, steps) == Some(q.p)
            && Grounded(size, trace + steps, q, user, wr1, wr2)
            && (NoEnter(more) ==> forall s | s in steps :: P.NoCall(s))
            && q.p.ring.handlerReleases >= w.p.ring.handlerReleases + if Interrupt in more then 1 else 0
  {
    hide Grounded, After, P.NoCall;
    if more == [] {
      steps := [];
      assert trace + [] == trace;
    } else {
      var init, e := more[..|more| - 1], more[|more| - 1];
      assert more == init + [e];
      var a := ScheduleSteps(size, trace, w, init, user, wr1, wr2);
      var q := AfterAll(w, init, user, wr1, wr2);
      var b := EventSteps(size, trace + a, q, e, user, wr1, wr2);
      ExecAppend(P.Next, w.p, a, q.p, b);
      assert trace + a + b == trace + (a + b);
      steps := a + b;
    }
  }

  /** Every world that a schedule reaches is grounded. */
  lemma Reached(size: nat, schedule: seq<Event>, user: seq<byte>, wr1: nat, wr2: nat) returns (trace: seq<P.Step>)
    requires size > 0
    ensures Grounded(size, trace, AfterAll(Start(size), schedule, user, wr1, wr2), user, wr1, wr2)
  {
    trace := ScheduleSteps(size, [], Start(size), schedule, user, wr1, wr2);
    assert [] + trace == trace;
  }

  // What happens when an event happens

  /** No event is without its effect: a call that is made is recorded and in progress, the card plays the byte it has
      come to, and an interrupt is served. */
  ghost predicate Happened(w: World, e: Event, q: World, user: seq<byte>) {
    match e
    case Enter(t, from, count) =>
      if t !in w.calls && from + count <= |user|
      then t in q.calls && q.made == w.made + [Request(t, from, count)] && q.done == w.done
      else q == w
    case Go(t) => q.made == w.made && q.p.output == w.p.output && q.p.ring.services == w.p.ring.services
    case Play =>
      && w.p.dmaPos < |P.Buffer(w.p, w.p.dmaHalf)|
      && q.p.output == w.p.output + [P.Buffer(w.p, w.p.dmaHalf)[w.p.dmaPos]]
      && q.calls == w.calls && q.made == w.made && q.done == w.done && q.p.ring == w.p.ring
    case Interrupt =>
      q.p.ring.services == w.p.ring.services + 1 && q.calls == w.calls && q.made == w.made && q.done == w.done
  }

  lemma EventsHappen(size: nat, schedule: seq<Event>, e: Event, user: seq<byte>, wr1: nat, wr2: nat)
    requires size > 0
    ensures Happened(AfterAll(Start(size), schedule, user, wr1, wr2), e,
                     AfterAll(Start(size), schedule + [e], user, wr1, wr2), user)
  {
    hide WentOn, CanGo, P.DoFetch;
    var trace := Reached(size, schedule, user, wr1, wr2);
    var w := AfterAll(Start(size), schedule, user, wr1, wr2);
    AfterOne(Start(size), schedule, e, user, wr1, wr2);
    D.Known(size, trace, w.p);
    match e
    case Enter(t, from, count) =>
    case Go(t) => if t in w.calls && CanGo(w.p, t, w.calls[t]) { GoRecords(w, t, wr1, wr2); }
    case Play => PlayFrame(w.p);
    case Interrupt =>
  }

  lemma GoRecords(w: World, t: nat, wr1: nat, wr2: nat)
    requires t in w.calls && CanGo(w.p, t, w.calls[t]) && w.p.ring.lock.Free?
    ensures var q := WentOn(w, t, wr1, wr2);
            q.made == w.made && q.p.output == w.p.output && q.p.ring.services == w.p.ring.services
  {
    hide Gone;
    GoFrame(w.p, t, w.calls[t]);
  }

  lemma PlayFrame(p: P.Play)
    requires P.CanFetch(p)
    ensures P.DoFetch(p).output == p.output + [P.Buffer(p, p.dmaHalf)[p.dmaPos]] && P.DoFetch(p).ring == p.ring
  {
    hide P.DoFetch;
    P.FetchFrame(p);
  }

  /** A thread in a call goes on with its next piece, unless it is blocked in the semaphore. */
  lemma StuckIsBlocked(size: nat, schedule: seq<Event>, t: nat, user: seq<byte>, wr1: nat, wr2: nat)
    requires size > 0
    requires t in AfterAll(Start(size), schedule, user, wr1, wr2).calls
    ensures var w := AfterAll(Start(size), schedule, user, wr1, wr2);
            After(w, Go(t), user, wr1, wr2) == w <==> t in w.p.ring.mutex.queue
  {
    var trace := Reached(size, schedule, user, wr1, wr2);
    GroundedStuck(size, trace, AfterAll(Start(size), schedule, user, wr1, wr2), t, user, wr1, wr2);
  }

  lemma GroundedStuck(size: nat, trace: seq<P.Step>, w: World, t: nat, user: seq<byte>, wr1: nat, wr2: nat)
    requires Grounded(size, trace, w, user, wr1, wr2) && t in w.calls
    ensures After(w, Go(t), user, wr1, wr2) == w <==> t in w.p.ring.mutex.queue
  {
    hide Gone;
    var c := w.calls[t];
    assert Matches(w.p, t, c, user, wr1, wr2);
    GoKnown(size, trace, w.p, t, c, user, wr1, wr2);
    RingInv(size, trace, w.p);
    var next, q := Moved(w.p, t, c, wr1, wr2), WentOn(w, t, wr1, wr2);
    if t in w.p.ring.mutex.queue {
      StaysPut(w.p, t, c, wr1, wr2);
      assert Put(w.calls, t, next) == w.calls;
    } else if next.None? {
      assert t !in q.calls;
    } else {
      assert q.calls[t].at != c.at;
    }
  }

  /** A blocked thread has nothing to do. */
  lemma StaysPut(p: P.Play, t: nat, c: Call, wr1: nat, wr2: nat)
    requires CanGo(p, t, c) && c.at.Blocked? && t in p.ring.mutex.queue
    ensures Gone(p, t, c) == p && Moved(p, t, c, wr1, wr2) == Some(c)
  {
  }

  lemma RingInv(size: nat, trace: seq<P.Step>, p: P.Play)
    requires size > 0 && Exec(P.Next, P.Init(size), trace) == Some(p)
    ensures R.Inv(p.ring) && p.ring.size == size
  {
    P.InitInv(size);
    P.InvRun(P.Init(size), trace);
    RingRuns.PlayRun(P.Init(size), trace);
    R.TotalRun(size, RingRuns.OfPlayRun(trace));
  }

  // Until nobody can go on

  /** No thread in a call can go on. */
  ghost predicate Quiet(w: World, user: seq<byte>, wr1: nat, wr2: nat) {
    forall t | t in w.calls :: After(w, Go(t), user, wr1, wr2) == w
  }

  lemma QuietIsQuiescent(size: nat, trace: seq<P.Step>, w: World, user: seq<byte>, wr1: nat, wr2: nat)
    requires Grounded(size, trace, w, user, wr1, wr2) && Quiet(w, user, wr1, wr2)
    ensures Pr.Quiescent(w.p.ring)
  {
    hide After;
    RingInv(size, trace, w.p);
    forall t | t in w.p.ring.todo ensures t in w.p.ring.mutex.queue {
      assert t in w.calls;
      GroundedStuck(size, trace, w, t, user, wr1, wr2);
    }
    Pr.AllQueued(w.p.ring);
  }

  ghost function Sleepers(calls: map<nat, Call>): set<nat> { set t | t in calls && calls[t].at.Blocked? }

  /** What the threads in calls can still do before the next interrupt. */
  ghost function Effort(w: World): int { 2 * Pr.Work(w.p.ring) + |Sleepers(w.calls)| }

  lemma GoWorks(size: nat, trace: seq<P.Step>, w: World, t: nat, user: seq<byte>, wr1: nat, wr2: nat)
    requires Grounded(size, trace, w, user, wr1, wr2) && t in w.calls && After(w, Go(t), user, wr1, wr2) != w
    ensures Effort(After(w, Go(t), user, wr1, wr2)) < Effort(w)
  {
    hide All, Gone, CanGo, Exec, R.Inv, Pr.Work;
    var steps := PieceSteps(size, trace, w, t, user, wr1, wr2);
    var c, q := w.calls[t], WentOn(w, t, wr1, wr2);
    RingInv(size, trace, w.p);
    RingRuns.PlayRun(w.p, steps);
    RingRuns.ThreadPlayRun(steps);
    Pr.StepsEnd(w.p.ring, RingRuns.OfPlayRun(steps));
    FewSleepers(w, t, wr1, wr2);
    if c.at.Blocked? { GroundedStuck(size, trace, w, t, user, wr1, wr2); }
  }

  lemma FewSleepers(w: World, t: nat, wr1: nat, wr2: nat)
    requires t in w.calls && CanGo(w.p, t, w.calls[t])
    ensures var a, b := Sleepers(w.calls), Sleepers(WentOn(w, t, wr1, wr2).calls);
            && |b| <= |a| + 1
            && (w.calls[t].at.Blocked? && t !in w.p.ring.mutex.queue ==> |b| < |a|)
  {
    var a, b := Sleepers(w.calls), Sleepers(WentOn(w, t, wr1, wr2).calls);
    assert b <= a + {t};
    M.Subset(b, a + {t});
    if w.calls[t].at.Blocked? && t !in w.p.ring.mutex.queue {
      assert b <= a - {t};
      M.Subset(b, a - {t});
    }
  }

  /** How many of the events are pieces that a thread runs, rather than finds itself blocked. */
  ghost function Moves(w: World, more: seq<Event>, user: seq<byte>, wr1: nat, wr2: nat): nat {
    if more == [] then 0 else
    var init, e := more[..|more| - 1], more[|more| - 1];
    var q := AfterAll(w, init, user, wr1, wr2);
    Moves(w, init, user, wr1, wr2) + if e.Go? && After(q, e, user, wr1, wr2) != q then 1 else 0
  }

  /** Without an interrupt and without new calls the threads only have so many pieces to run, in whatever order, and
      however much the card plays meanwhile. */
  lemma {:induction false} MovesEnd(size: nat, trace: seq<P.Step>, w: World, more: seq<Event>, user: seq<byte>,
                                    wr1: nat, wr2: nat)
    requires Grounded(size, trace, w, user, wr1, wr2)
    requires forall e | e in more :: e.Go? || e.Play?
    ensures var q := AfterAll(w, more, user, wr1, wr2);
            0 <= Effort(q) && Moves(w, more, user, wr1, wr2) + Effort(q) <= Effort(w)
  {
    hide Grounded, After, Effort;
    if more == [] {
      EffortIsLeft(size, trace, w, user, wr1, wr2);
    } else {
      var init, e := more[..|more| - 1], more[|more| - 1];
      assert more == init + [e];
      MovesEnd(size, trace, w, init, user, wr1, wr2);
      var a := ScheduleSteps(size, trace, w, init, user, wr1, wr2);
      assert e in more;
      EffortStep(size, trace + a, AfterAll(w, init, user, wr1, wr2), e, user, wr1, wr2);
    }
  }

  lemma EffortIsLeft(size: nat, trace: seq<P.Step>, w: World, user: seq<byte>, wr1: nat, wr2: nat)
    requires Grounded(size, trace, w, user, wr1, wr2)
    ensures Effort(w) >= 0
  {
    RingInv(size, trace, w.p);
    Pr.WorkIsLeft(w.p.ring);
  }

  lemma EffortStep(size: nat, trace: seq<P.Step>, w: World, e: Event, user: seq<byte>, wr1: nat, wr2: nat)
    requires Grounded(size, trace, w, user, wr1, wr2) && (e.Go? || e.Play?)
    ensures var q := After(w, e, user, wr1, wr2);
            0 <= Effort(q) && Effort(q) + (if e.Go? && q != w then 1 else 0) <= Effort(w)
  {
    hide Grounded, Effort, WentOn, CanGo, P.DoFetch;
    var b := EventSteps(size, trace, w, e, user, wr1, wr2);
    EffortIsLeft(size, trace + b, After(w, e, user, wr1, wr2), user, wr1, wr2);
    if e.Go? {
      if After(w, e, user, wr1, wr2) != w { GoWorks(size, trace, w, e.t, user, wr1, wr2); }
    } else if P.CanFetch(w.p) {
      PlayEffort(w);
    }
  }

  lemma PlayEffort(w: World)
    requires P.CanFetch(w.p)
    ensures Effort(w.(p := P.DoFetch(w.p))) == Effort(w)
  {
    PlayFrame(w.p);
  }

  /** So the threads can always be run until nobody can go on. */
  lemma {:induction false} Settles(size: nat, trace: seq<P.Step>, w: World, user: seq<byte>, wr1: nat, wr2: nat)
    returns (pieces: seq<Event>)
    requires Grounded(size, trace, w, user, wr1, wr2)
    ensures (forall e | e in pieces :: e.Go?) && Quiet(AfterAll(w, pieces, user, wr1, wr2), user, wr1, wr2)
    decreases Effort(w)
  {
    hide Grounded, After, Effort;
    EffortIsLeft(size, trace, w, user, wr1, wr2);
    if Quiet(w, user, wr1, wr2) {
      pieces := [];
    } else {
      var t :| t in w.calls && After(w, Go(t), user, wr1, wr2) != w;
      var b := EventSteps(size, trace, w, Go(t), user, wr1, wr2);
      EffortStep(size, trace, w, Go(t), user, wr1, wr2);
      var rest := Settles(size, trace + b, After(w, Go(t), user, wr1, wr2), user, wr1, wr2);
      AfterOne(w, [], Go(t), user, wr1, wr2);
      assert [] + [Go(t)] == [Go(t)];
      AfterBoth(w, [Go(t)], rest, user, wr1, wr2);
      pieces := [Go(t)] + rest;
    }
  }

  // Rounds

  /** A round: new calls are not made, the handler is called at least once, and at the end no thread can go on. */
  ghost predicate Round(w: World, round: seq<Event>, user: seq<byte>, wr1: nat, wr2: nat) {
    NoEnter(round) && Interrupt in round && Quiet(AfterAll(w, round, user, wr1, wr2), user, wr1, wr2)
  }

  /** How many bytes each call has still to move. */
  function ToMove(calls: map<nat, Call>): map<nat, nat> {
    map t | t in calls :: if calls[t].from <= calls[t].upto then calls[t].upto - calls[t].from else 0
  }

  lemma ToMoveIsTodo(size: nat, trace: seq<P.Step>, w: World, user: seq<byte>, wr1: nat, wr2: nat)
    requires Grounded(size, trace, w, user, wr1, wr2)
    ensures ToMove(w.calls) == w.p.ring.todo
  {
    forall t | t in w.calls ensures ToMove(w.calls)[t] == w.p.ring.todo[t] {
      assert Matches(w.p, t, w.calls[t], user, wr1, wr2);
    }
  }

  /** Every round moves at least one byte, as long as a call is in progress. */
  lemma RoundMoves(size: nat, trace: seq<P.Step>, w: World, round: seq<Event>, user: seq<byte>, wr1: nat, wr2: nat)
    requires Grounded(size, trace, w, user, wr1, wr2) && Quiet(w, user, wr1, wr2) && Round(w, round, user, wr1, wr2)
    ensures var q := AfterAll(w, round, user, wr1, wr2);
            q.calls == map[] || Pr.Sum(ToMove(q.calls)) < Pr.Sum(ToMove(w.calls))
  {
    hide Quiet, After, Pr.Quiescent, R.Inv, P.NoCall;
    var steps := ScheduleSteps(size, trace, w, round, user, wr1, wr2);
    var q := AfterAll(w, round, user, wr1, wr2);
    RingInv(size, trace, w.p);
    QuietIsQuiescent(size, trace, w, user, wr1, wr2);
    QuietIsQuiescent(size, trace + steps, q, user, wr1, wr2);
    RingRuns.PlayRun(w.p, steps);
    RingRuns.NoCallPlayRun(steps);
    ToMoveIsTodo(size, trace, w, user, wr1, wr2);
    ToMoveIsTodo(size, trace + steps, q, user, wr1, wr2);
    if w.calls == map[] {
      Pr.NobodyRun(w.p.ring, RingRuns.OfPlayRun(steps));
    } else {
      Pr.RoundMoves(w.p.ring, RingRuns.OfPlayRun(steps), q.p.ring);
    }
  }

  /** Rounds one after the other. */
  ghost predicate Rounds(w: World, rounds: seq<seq<Event>>, user: seq<byte>, wr1: nat, wr2: nat) {
    rounds != [] ==>
      var init := rounds[..|rounds| - 1];
      && Rounds(w, init, user, wr1, wr2)
      && Round(AfterAll(w, Flat(init), user, wr1, wr2), rounds[|rounds| - 1], user, wr1, wr2)
  }

  lemma {:induction false} RoundsMove(size: nat, trace: seq<P.Step>, w: World, rounds: seq<seq<Event>>, user: seq<byte>,
                                      wr1: nat, wr2: nat)
    requires Grounded(size, trace, w, user, wr1, wr2) && Quiet(w, user, wr1, wr2) && Rounds(w, rounds, user, wr1, wr2)
    ensures var q := AfterAll(w, Flat(rounds), user, wr1, wr2);
            && Quiet(q, user, wr1, wr2) && q.made == w.made
            && (q.calls == map[] || Pr.Sum(ToMove(q.calls)) + |rounds| <= Pr.Sum(ToMove(w.calls)))
  {
    hide Grounded, Quiet, After;
    if rounds != [] {
      var init, round := rounds[..|rounds| - 1], rounds[|rounds| - 1];
      RoundsMove(size, trace, w, init, user, wr1, wr2);
      var p := AfterAll(w, Flat(init), user, wr1, wr2);
      var a := ScheduleSteps(size, trace, w, Flat(init), user, wr1, wr2);
      RoundMoves(size, trace + a, p, round, user, wr1, wr2);
      AfterBoth(w, Flat(init), round, user, wr1, wr2);
      MadeStays(p, round, user, wr1, wr2);
    }
  }

  lemma {:induction false} MadeStays(w: World, more: seq<Event>, user: seq<byte>, wr1: nat, wr2: nat)
    requires NoEnter(more)
    ensures AfterAll(w, more, user, wr1, wr2).made == w.made
    ensures w.calls == map[] ==> AfterAll(w, more, user, wr1, wr2).calls == map[]
  {
    if more != [] {
      MadeStays(w, more[..|more| - 1], user, wr1, wr2);
      assert more[|more| - 1] in more;
    }
  }

  /** Every call returns, and each has written what it was for: if no new calls are made, then after as many rounds
      as there were bytes to move no call is in progress, each thread's calls have reported their lengths, and the
      stream holds all their bytes. */
  lemma CallsReturn(size: nat, schedule: seq<Event>, rounds: seq<seq<Event>>, user: seq<byte>, wr1: nat, wr2: nat)
    requires size > 0
    requires var w := AfterAll(Start(size), schedule, user, wr1, wr2);
             && Quiet(w, user, wr1, wr2) && Rounds(w, rounds, user, wr1, wr2)
             && |rounds| >= Pr.Sum(ToMove(w.calls))
    ensures var w := AfterAll(Start(size), schedule, user, wr1, wr2);
            var q := AfterAll(Start(size), schedule + Flat(rounds), user, wr1, wr2);
            && q.calls == map[] && q.made == w.made
            && forall t: nat :: Written(q, user, t)
  {
    hide After, Quiet, Delivered, Written;
    var w := AfterAll(Start(size), schedule, user, wr1, wr2);
    var trace := Reached(size, schedule, user, wr1, wr2);
    RoundsMove(size, trace, w, rounds, user, wr1, wr2);
    AfterBoth(Start(size), schedule, Flat(rounds), user, wr1, wr2);
    var trace' := Reached(size, schedule + Flat(rounds), user, wr1, wr2);
    var q := AfterAll(Start(size), schedule + Flat(rounds), user, wr1, wr2);
    if q.calls != map[] { LeftToMove(size, trace', q, user, wr1, wr2); }
    forall t: nat ensures Written(q, user, t) {
      WorldDelivers(size, trace', q, schedule + Flat(rounds), user, wr1, wr2, t);
      AllWritten(q, user, t);
    }
  }

  /** t's calls have all returned. */
  ghost predicate Written(w: World, user: seq<byte>, t: nat) {
    Counts(w.done, t) == Lengths(w.made, t) && Project(w.p.stream, t) == Passed(w.made, t, user)
  }

  lemma AllWritten(w: World, user: seq<byte>, t: nat)
    requires Delivered(w, user, t) && w.calls == map[]
    ensures Written(w, user, t)
  {
    NothingMore(Counts(w.done, t));
    NothingMore(Project(w.p.stream, t));
  }

  lemma LeftToMove(size: nat, trace: seq<P.Step>, w: World, user: seq<byte>, wr1: nat, wr2: nat)
    requires Grounded(size, trace, w, user, wr1, wr2) && Quiet(w, user, wr1, wr2) && w.calls != map[]
    ensures Pr.Sum(ToMove(w.calls)) > 0
  {
    QuietIsQuiescent(size, trace, w, user, wr1, wr2);
    RingInv(size, trace, w.p);
    ToMoveIsTodo(size, trace, w, user, wr1, wr2);
    Pr.LeftToMove(w.p.ring);
  }

  /** Any number of rounds can follow. */
  lemma {:induction false} MoreRounds(size: nat, trace: seq<P.Step>, w: World, n: nat, user: seq<byte>,
                                      wr1: nat, wr2: nat)
    returns (rounds: seq<seq<Event>>)
    requires Grounded(size, trace, w, user, wr1, wr2)
    ensures |rounds| == n && Rounds(w, rounds, user, wr1, wr2)
  {
    hide Grounded, Quiet, After;
    if n == 0 {
      rounds := [];
    } else {
      var init := MoreRounds(size, trace, w, n - 1, user, wr1, wr2);
      var a := ScheduleSteps(size, trace, w, Flat(init), user, wr1, wr2);
      var round := OneRound(size, trace + a, AfterAll(w, Flat(init), user, wr1, wr2), user, wr1, wr2);
      rounds := init + [round];
      assert rounds[..n - 1] == init;
    }
  }

  lemma OneRound(size: nat, trace: seq<P.Step>, w: World, user: seq<byte>, wr1: nat, wr2: nat)
    returns (round: seq<Event>)
    requires Grounded(size, trace, w, user, wr1, wr2)
    ensures Round(w, round, user, wr1, wr2)
  {
    hide Grounded, Quiet, After;
    var a := ScheduleSteps(size, trace, w, [Interrupt], user, wr1, wr2);
    var pieces := Settles(size, trace + a, AfterAll(w, [Interrupt], user, wr1, wr2), user, wr1, wr2);
    AfterBoth(w, [Interrupt], pieces, user, wr1, wr2);
    round := [Interrupt] + pieces;
  }

  /** So whatever threads have done so far, all that are in calls can get out of them. */
  lemma CanFinish(size: nat, schedule: seq<Event>, user: seq<byte>, wr1: nat, wr2: nat) returns (more: seq<Event>)
    requires size > 0
    ensures NoEnter(more) && AfterAll(Start(size), schedule + more, user, wr1, wr2).calls == map[]
  {
    hide After, AfterAll, Grounded, Quiet, Rounds, Flat, Written;
    var trace := Reached(size, schedule, user, wr1, wr2);
    var w := AfterAll(Start(size), schedule, user, wr1, wr2);
    var pieces := Settles(size, trace, w, user, wr1, wr2);
    var a := ScheduleSteps(size, trace, w, pieces, user, wr1, wr2);
    var q := AfterAll(w, pieces, user, wr1, wr2);
    var rounds := MoreRounds(size, trace + a, q, Pr.Sum(ToMove(q.calls)), user, wr1, wr2);
    AfterBoth(Start(size), schedule, pieces, user, wr1, wr2);
    CallsReturn(size, schedule + pieces, rounds, user, wr1, wr2);
    more := pieces + Flat(rounds);
    FlatNoEnter(q, rounds, user, wr1, wr2);
    assert schedule + more == schedule + pieces + Flat(rounds);
  }

  lemma {:induction false} FlatNoEnter(w: World, rounds: seq<seq<Event>>, user: seq<byte>, wr1: nat, wr2: nat)
    requires Rounds(w, rounds, user, wr1, wr2)
    ensures NoEnter(Flat(rounds))
  {
    if rounds != [] { FlatNoEnter(w, rounds[..|rounds| - 1], user, wr1, wr2); }
  }

  /** The code itself, run to the end of all calls. */
  method RunToEnd(device: D.Device, user: array<byte>, schedule: seq<Event>, rounds: seq<seq<Event>>)
    returns (calls: map<nat, Call>, made: seq<Request>, done: seq<Result>)
    requires device.Valid() && user != device.area && device.model == P.Init(device.wrSize)
    requires var w := AfterAll(Start(device.wrSize), schedule, user[..], device.wr1, device.wr2);
             && Quiet(w, user[..], device.wr1, device.wr2) && Rounds(w, rounds, user[..], device.wr1, device.wr2)
             && |rounds| >= Pr.Sum(ToMove(w.calls))
    modifies device, device.mutex, device.area
    ensures calls == map[] && device.Valid()
    ensures forall t: nat :: Written(World(device.model, calls, made, done), user[..], t)
  {
    CallsReturn(device.wrSize, schedule, rounds, user[..], device.wr1, device.wr2);
    calls, made, done := Run(device, user, schedule + Flat(rounds));
  }
}
