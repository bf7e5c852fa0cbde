/**
 Calls end.  Between two interrupts the threads in pcm_write (or pcm_read) can make only so many steps; and if
 each interrupt finds that they have made them, then after as many interrupts as there are bytes to move all
 calls have returned, unless new ones have been made.
 */
module Progress {
  import opened Runs
  import M = CountingMutex
  import opened Ring

  /** Steps of the threads that are in calls. */
  predicate Inner(s: Step) { !s.Begin? && !HandlerStep(s) }

  /** The lock is free and no thread in a call can go on. */
  ghost predicate Quiescent(r: Ring) { r.lock.Free? && forall s: Step :: Inner(s) ==> !Enabled(r, s) }

  /** Nobody can go on if everybody in a call is in the semaphore's queue. */
  lemma AllQueued(r: Ring)
    requires Inv(r) && r.lock.Free? && forall t | t in r.todo :: t in r.mutex.queue
    ensures Quiescent(r)
  {
    forall s: Step | Inner(s) ensures !Enabled(r, s) {
    }
  }

  // How much there is to move

  ghost function Sum(m: map<nat, nat>): nat {
    if m == map[] then 0 else
    var t :| t in m;
    m[t] + Sum(m - {t})
  }

  lemma {:induction false} SumWithout(m: map<nat, nat>, t: nat)
    requires t in m
    ensures Sum(m) == m[t] + Sum(m - {t})
    decreases |m|
  {
    var u :| u in m && Sum(m) == m[u] + Sum(m - {u});
    if u != t {
      SumWithout(m - {u}, t);
      SumWithout(m - {t}, u);
      assert m - {u} - {t} == m - {t} - {u};
    }
  }

  lemma SumLess(m: map<nat, nat>, t: nat, n: nat)
    requires t in m && n <= m[t]
    ensures Sum(m[t := m[t] - n]) == Sum(m) - n
  {
    var q := m[t := m[t] - n];
    SumWithout(m, t);
    SumWithout(q, t);
    assert q - {t} == m - {t};
  }

  lemma SumStep(r: Ring, s: Step)
    requires Inv(r) && Enabled(r, s) && !s.Begin?
    ensures Sum(Apply(r, s).todo) <= Sum(r.todo)
    ensures s.Copy? ==> Sum(Apply(r, s).todo) == Sum(r.todo) - r.copying[s.t].len
  {
    if s.Copy? {
      SumLess(r.todo, s.t, r.copying[s.t].len);
    } else if s.End? {
      SumWithout(r.todo, s.t);
    } else {
      assert Apply(r, s).todo == r.todo;
    }
  }

  // Between two interrupts

  function InFlight(r: Ring, t: nat): nat { if t in r.copying then r.copying[t].len else 0 }

  /** t has decided to take all it wants. */
  predicate Finishing(r: Ring, t: nat) {
    r.lock.Client? && r.lock.tid == t && (r.lock.phase.Releasing? || (r.lock.phase.Reserving? && !r.lock.phase.kept))
  }

  /** Threads that have another turn to wait for. */
  ghost function Unfinished(r: Ring): set<nat> {
    set t | t in r.todo && r.todo[t] > InFlight(r, t) && !Finishing(r, t)
  }

  function Tokens(m: M.Mutex): nat { m.count + |m.held| + if m.release.Posting? then 1 else 0 }

  function Progressed(l: Lock): nat {
    if !l.Client? then 0 else if l.phase.Testing? then 1 else if l.phase.Releasing? then 2 else 3
  }

  /** What the threads in calls can still do without an interrupt: each turn uses up a token or ends a call. */
  ghost function Work(r: Ring): int {
    9 * Tokens(r.mutex) + 18 * |Unfinished(r)| + 7 * |r.todo| + |r.copying|
    - |r.mutex.added| - 2 * |r.mutex.queue| - 3 * |r.mutex.held| - Progressed(r.lock)
  }

  lemma AddWork(r: Ring, t: nat)
    requires Inv(r) && Enabled(r, Add(t))
    ensures Work(Apply(r, Add(t))) < Work(r)
  {
    assert Unfinished(Apply(r, Add(t))) == Unfinished(r);
  }

  lemma AcquireWork(r: Ring, t: nat)
    requires Inv(r) && Enabled(r, Acquire(t))
    ensures Work(Apply(r, Acquire(t))) < Work(r)
  {
    hide Tiles;
    var q := Apply(r, Acquire(t));
    assert t !in r.mutex.held;
    assert Unfinished(q) == Unfinished(r);
    assert |q.mutex.added| == |r.mutex.added| - 1;
    if r.mutex.count > 0 { assert |q.mutex.held| == |r.mutex.held| + 1; }
  }

  lemma LockWork(r: Ring, s: Step)
    requires Inv(r) && Enabled(r, s) && (s.Enter? || s.FinishRelease?)
    ensures Work(Apply(r, s)) < Work(r)
  {
    assert Unfinished(Apply(r, s)) == Unfinished(r);
  }

  lemma TestWork(r: Ring, t: nat)
    requires Inv(r) && Enabled(r, Test(t))
    ensures Work(Apply(r, Test(t))) < Work(r)
  {
    var q := Apply(r, Test(t));
    if q.lock.phase.Releasing? {
      assert t in r.mutex.held && t in Unfinished(r);
      assert Unfinished(q) == Unfinished(r) - {t};
    } else {
      assert Unfinished(q) == Unfinished(r);
    }
  }

  lemma ReserveWork(r: Ring, t: nat)
    requires Inv(r) && Enabled(r, Reserve(t))
    ensures Work(Apply(r, Reserve(t))) < Work(r)
  {
    var q := Apply(r, Reserve(t));
    assert t !in r.copying && q.copying.Keys == r.copying.Keys + {t};
    Fewer(Unfinished(q), Unfinished(r));
  }

  lemma Fewer(a: set<nat>, b: set<nat>)
    requires a <= b
    ensures |a| <= |b|
  {
    M.Subset(a, b);
  }

  lemma CopyWork(r: Ring, t: nat)
    requires Inv(r) && Enabled(r, Copy(t))
    ensures Work(Apply(r, Copy(t))) < Work(r)
  {
    var q := Apply(r, Copy(t));
    assert Unfinished(q) == Unfinished(r);
    assert q.copying.Keys == r.copying.Keys - {t} && q.todo.Keys == r.todo.Keys;
    Sizes(q.copying);
    Sizes(r.copying);
    Sizes(q.todo);
    Sizes(r.todo);
  }

  lemma EndWork(r: Ring, t: nat)
    requires Inv(r) && Enabled(r, End(t))
    ensures Work(Apply(r, End(t))) < Work(r)
  {
    var q := Apply(r, End(t));
    assert Unfinished(q) == Unfinished(r);
    assert q.todo.Keys == r.todo.Keys - {t};
    Sizes(q.todo);
    Sizes(r.todo);
  }

  lemma Sizes<T>(m: map<nat, T>)
    ensures |m| == |m.Keys|
  {
  }

  lemma WorkStep(r: Ring, s: Step)
    requires Inv(r) && Enabled(r, s) && Inner(s)
    ensures Work(Apply(r, s)) < Work(r)
  {
    match s
    case Test(t) => TestWork(r, t);
    case Reserve(t) => ReserveWork(r, t);
    case Copy(t) => CopyWork(r, t);
    case End(t) => EndWork(r, t);
    case Add(t) => AddWork(r, t);
    case Acquire(t) => AcquireWork(r, t);
    case _ => LockWork(r, s);
  }

  ghost function Elements(q: seq<nat>): set<nat> { set t | t in q }

  lemma {:induction false} Distinct(q: seq<nat>)
    requires forall i, j | 0 <= i < j < |q| :: q[i] != q[j]
    ensures |Elements(q)| == |q|
  {
    if q != [] {
      var k := |q| - 1;
      Distinct(q[..k]);
      assert Elements(q) == Elements(q[..k]) + {q[k]};
    }
  }

  lemma WorkIsLeft(r: Ring)
    requires Inv(r)
    ensures Work(r) >= 0
  {
    var m := r.mutex;
    Distinct(m.queue);
    var places := m.added + Elements(m.queue) + m.held;
    assert m.added !! Elements(m.queue) && (m.added + Elements(m.queue)) !! m.held;
    assert places <= r.todo.Keys;
    M.Subset(places, r.todo.Keys);
    Sizes(r.todo);
    if r.lock.Client? { M.Subset({r.lock.tid}, m.held); }
  }

  /** Without an interrupt and without new calls only so many steps are possible. */
  lemma {:induction false} StepsEnd(r: Ring, steps: seq<Step>)
    requires Inv(r) && Exec(Next, r, steps).Some? && forall s | s in steps :: Inner(s)
    ensures var q := Exec(Next, r, steps).value; Inv(q) && |steps| + Work(q) <= Work(r) && 0 <= Work(q)
  {
    if steps != [] {
      var init, s := steps[..|steps| - 1], steps[|steps| - 1];
      StepsEnd(r, init);
      assert s in steps;
      InvStep(Exec(Next, r, init).value, s);
      WorkStep(Exec(Next, r, init).value, s);
    }
    WorkIsLeft(Exec(Next, r, steps).value);
  }

  // One round

  /** Everybody in a call is blocked. */
  ghost predicate AllBlocked(r: Ring) {
    && r.copying == map[] && r.mutex.added == {} && r.mutex.held == {} && r.mutex.queue != []
    && (forall t | t in r.todo :: r.todo[t] > 0 && t in r.mutex.queue)
  }

  lemma QuiescentIsBlocked(r: Ring)
    requires Inv(r) && Quiescent(r) && r.todo != map[]
    ensures AllBlocked(r)
  {
    forall t: nat ensures t !in r.copying && t !in r.mutex.added && t !in r.mutex.held {
      assert !Enabled(r, Copy(t)) && !Enabled(r, Acquire(t)) && !Enabled(r, Enter(t));
    }
    forall t | t in r.todo ensures r.todo[t] > 0 && t in r.mutex.queue {
      assert !Enabled(r, End(t)) && !Enabled(r, Add(t));
    }
    var t :| t in r.todo;
    assert t in r.mutex.queue;
  }

  /** Since r, when everybody was blocked, no interrupt has begun its release: still everybody is. */
  ghost predicate Waiting(r: Ring, q: Ring) {
    && AllBlocked(q) && q.todo == r.todo && q.handlerReleases == r.handlerReleases
    && (q.lock.Free? || q.lock == Handler(Entered) || q.lock == Handler(Swapped))
  }

  /** Somebody has been woken, or is about to be, and has the whole back half before him. */
  ghost predicate Awake(r: Ring, q: Ring) {
    && q.used == 0 && q.todo == r.todo && q.copying == map[] && q.mutex.added == {}
    && (forall t | t in q.todo :: q.todo[t] > 0 && (t in q.mutex.queue || t in q.mutex.held))
    && (q.mutex.held != {}
        || (q.lock == Handler(HandlerPhase.Releasing) && q.mutex.release.Posting? && q.mutex.queue != []))
  }

  /** Bytes are in flight. */
  ghost predicate Moving(r: Ring, q: Ring) {
    Sum(q.todo) <= Sum(r.todo) && exists t :: t in q.copying && q.copying[t].len > 0
  }

  ghost predicate Moved(r: Ring, q: Ring) { Sum(q.todo) < Sum(r.todo) }

  ghost predicate Under(r: Ring, q: Ring) { Waiting(r, q) || Awake(r, q) || Moving(r, q) || Moved(r, q) }

  lemma WaitingStep(r: Ring, q: Ring, s: Step)
    requires Inv(q) && Waiting(r, q) && Enabled(q, s) && !s.Begin?
    ensures Waiting(r, Apply(q, s)) || Awake(r, Apply(q, s))
  {
    if s.HStartRelease? { M.BlockedIsSeen(q.mutex); }
  }

  lemma AwakeStep(r: Ring, q: Ring, s: Step)
    requires Inv(q) && Awake(r, q) && Enabled(q, s) && !s.Begin? && q.size > 0
    ensures Awake(r, Apply(q, s)) || Moving(r, Apply(q, s))
  {
    var p := Apply(q, s);
    if s.Reserve? {
      assert s.t in p.copying && p.copying[s.t].len > 0;
    } else if HandlerStep(s) {
      AwakeHandler(r, q, s);
    } else {
      AwakeClient(r, q, s);
    }
  }

  lemma AwakeHandler(r: Ring, q: Ring, s: Step)
    requires Inv(q) && Awake(r, q) && Enabled(q, s) && HandlerStep(s)
    ensures Awake(r, Apply(q, s))
  {
  }

  lemma AwakeClient(r: Ring, q: Ring, s: Step)
    requires Inv(q) && Awake(r, q) && Enabled(q, s) && Inner(s) && !s.Reserve?
    ensures Awake(r, Apply(q, s))
  {
  }

  lemma MovingStep(r: Ring, q: Ring, s: Step)
    requires Inv(q) && Moving(r, q) && Enabled(q, s) && !s.Begin?
    ensures Moving(r, Apply(q, s)) || Moved(r, Apply(q, s))
  {
    SumStep(q, s);
    var t :| t in q.copying && q.copying[t].len > 0;
    var p := Apply(q, s);
    if s.Reserve? {
      assert s.t !in q.copying;
      assert t in p.copying && p.copying[t].len > 0;
    } else if s == Copy(t) {
      assert Moved(r, p);
    } else {
      assert t in p.copying && p.copying[t].len > 0;
    }
  }

  lemma UnderStep(r: Ring, q: Ring, s: Step)
    requires Inv(q) && Under(r, q) && Enabled(q, s) && !s.Begin? && q.size > 0
    ensures Under(r, Apply(q, s))
  {
    if Waiting(r, q) { WaitingStep(r, q, s); }
    else if Awake(r, q) { AwakeStep(r, q, s); }
    else if Moving(r, q) { MovingStep(r, q, s); }
    else { SumStep(q, s); }
  }

  lemma {:induction false} UnderRun(r: Ring, steps: seq<Step>)
    requires Inv(r) && r.size > 0 && AllBlocked(r) && r.lock.Free? && NoneBegin(steps) && Exec(Next, r, steps).Some?
    ensures var q := Exec(Next, r, steps).value; Inv(q) && q.size == r.size && Under(r, q)
  {
    if steps != [] {
      var init := steps[..|steps| - 1];
      var q, s := Exec(Next, r, init).value, steps[|steps| - 1];
      UnderRun(r, init);
      assert s in steps;
      InvStep(q, s);
      SizeStays(q, s);
      UnderStep(r, q, s);
    }
  }

  lemma SizeStays(r: Ring, s: Step)
    requires Enabled(r, s)
    ensures Apply(r, s).size == r.size
  {
  }

  predicate NoneBegin(steps: seq<Step>) { forall s | s in steps :: !s.Begin? }

  /** From r to q, where no thread can go on: an interrupt, or several, and whatever the threads in calls could
      do before and after, but no new call. */
  ghost predicate Round(r: Ring, steps: seq<Step>, q: Ring) {
    NoneBegin(steps) && Exec(Next, r, steps) == Some(q) && Quiescent(q) && q.handlerReleases > r.handlerReleases
  }

  /** Each round moves at least one byte, as long as there are any to move. */
  lemma RoundMoves(r: Ring, steps: seq<Step>, q: Ring)
    requires Inv(r) && r.size > 0 && Quiescent(r) && r.todo != map[] && Round(r, steps, q)
    ensures Inv(q) && q.size == r.size && Sum(q.todo) < Sum(r.todo)
  {
    QuiescentIsBlocked(r);
    UnderRun(r, steps);
    if Awake(r, q) {
      var t :| t in q.mutex.held;
      assert Enabled(q, Enter(t));
    } else if Moving(r, q) && !Moved(r, q) {
      var t :| t in q.copying && q.copying[t].len > 0;
      assert Enabled(q, Copy(t));
    }
  }

  /** Rounds one after the other, and the states between them. */
  ghost predicate Rounds(states: seq<Ring>, rounds: seq<seq<Step>>) {
    && |states| == |rounds| + 1
    && forall i | 0 <= i < |rounds| :: Round(states[i], rounds[i], states[i + 1])
  }

  lemma {:induction false} RoundsMove(states: seq<Ring>, rounds: seq<seq<Step>>, k: nat)
    requires Rounds(states, rounds) && Inv(states[0]) && states[0].size > 0 && Quiescent(states[0]) && k <= |rounds|
    ensures var r, q := states[0], states[k];
            && Inv(q) && q.size == r.size && Quiescent(q)
            && (q.todo == map[] || Sum(q.todo) + k <= Sum(r.todo))
  {
    if k > 0 {
      RoundsMove(states, rounds, k - 1);
      var p, q := states[k - 1], states[k];
      assert Round(p, rounds[k - 1], q);
      if p.todo != map[] {
        RoundMoves(p, rounds[k - 1], q);
      } else {
        InvRun(p, rounds[k - 1]);
        NobodyRun(p, rounds[k - 1]);
      }
    }
  }

  lemma {:induction false} NobodyRun(r: Ring, steps: seq<Step>)
    requires Inv(r) && r.todo == map[] && NoneBegin(steps) && Exec(Next, r, steps).Some?
    ensures var q := Exec(Next, r, steps).value; q.todo == map[] && q.size == r.size
  {
    if steps != [] {
      var init := steps[..|steps| - 1];
      NobodyRun(r, init);
      InvRun(r, init);
      assert steps[|steps| - 1] in steps;
      NobodyStep(Exec(Next, r, init).value, steps[|steps| - 1]);
    }
  }

  lemma NobodyStep(r: Ring, s: Step)
    requires Inv(r) && r.todo == map[] && Enabled(r, s) && !s.Begin?
    ensures Apply(r, s).todo == map[] && Apply(r, s).size == r.size
  {
  }

  lemma LeftToMove(r: Ring)
    requires Inv(r) && Quiescent(r) && r.todo != map[]
    ensures Sum(r.todo) > 0
  {
    QuiescentIsBlocked(r);
    var t :| t in r.todo;
    SumWithout(r.todo, t);
  }

  /** If no new calls are made, all calls have returned after no more rounds than there were bytes to move. */
  lemma CallsReturn(states: seq<Ring>, rounds: seq<seq<Step>>)
    requires Rounds(states, rounds) && Inv(states[0]) && states[0].size > 0 && Quiescent(states[0])
    requires |rounds| >= Sum(states[0].todo)
    ensures states[|rounds|].todo == map[]
  {
    RoundsMove(states, rounds, |rounds|);
    var q := states[|rounds|];
    if q.todo != map[] { LeftToMove(q); }
  }
}
