/**
 The counting mutex of mutex.c as a transition system: any number of threads, one atomic
 operation per step.

 A mutex is a kernel semaphore (a count and, when the count is 0, a first-come first-served
 queue of blocked threads) together with the driver's own waiting_count.  Acquiring is two
 steps, the counter add and then the semaphore take; releasing is also two steps, the counter
 subtract and then either the semaphore post or the undo.  Whoever releases need not be whoever
 acquired: the interrupt handler releases on behalf of the writer that filled the last buffer.
 */
module CountingMutex {
  import opened Runs

  /** The release in progress, if any: past its counter subtract, before its second step. */
  datatype Release = Idle | Posting | Undoing

  datatype Mutex = Mutex(
    count: nat,           // free tokens of the semaphore
    queue: seq<nat>,      // threads blocked in the semaphore, first come first
    waiting: int,         // waiting_count
    added: set<nat>,      // threads past the counter add, not yet at the semaphore
    held: set<nat>,       // threads past the semaphore that have not left yet
    release: Release,
    // History: how often each thing happened, and who joined and left the queue.
    posts: nat, leaves: nat, joined: seq<nat>, woken: seq<nat>
  )

  /** mutex_create */
  const FRESH: Mutex := Mutex(1, [], 0, {}, {}, Idle, 0, 0, [], [])

  datatype Step =
    | Add(t: nat)         // mutex_acquire: atomic_add(&waiting_count, 1)
    | Acquire(t: nat)     // mutex_acquire: acquire_sem
    | StartRelease        // mutex_release: atomic_add(&waiting_count, -1)
    | FinishRelease       // mutex_release: release_sem_etc, or undo the subtract
    | Leave(t: nat)       // t is done with its turn (this touches no mutex field)

  predicate Enabled(m: Mutex, s: Step) {
    match s
    case Add(t) => t !in m.added && t !in m.queue && t !in m.held
    case Acquire(t) => t in m.added
    case StartRelease => m.release.Idle?
    case FinishRelease => !m.release.Idle?
    case Leave(t) => t in m.held
  }

  function Apply(m: Mutex, s: Step): Mutex
    requires Enabled(m, s)
  {
    match s
    case Add(t) =>
      m.(waiting := m.waiting + 1, added := m.added + {t})
    case Acquire(t) =>
      if m.count > 0
      then m.(count := m.count - 1, added := m.added - {t}, held := m.held + {t})
      else m.(queue := m.queue + [t], added := m.added - {t}, joined := m.joined + [t])
    case StartRelease =>
      if m.waiting > 0
      then m.(waiting := m.waiting - 1, release := Posting, posts := m.posts + 1)
      else m.(waiting := m.waiting - 1, release := Undoing)
    case FinishRelease =>
      if m.release.Undoing? then m.(waiting := m.waiting + 1, release := Idle)
      else if m.queue == [] then m.(count := m.count + 1, release := Idle)
      else m.(queue := m.queue[1..], held := m.held + {m.queue[0]},
              woken := m.woken + [m.queue[0]], release := Idle)
    case Leave(t) =>
      m.(held := m.held - {t}, leaves := m.leaves + 1)
  }

  function InFlight(m: Mutex): nat { if m.release.Idle? then 0 else 1 }

  /** Threads past the counter add that have not got through the semaphore. */
  function Pending(m: Mutex): nat { |m.added| + |m.queue| }

  /** A thread waits at one place only. */
  ghost predicate Separate(m: Mutex) {
    && m.added !! m.held
    && (forall i | 0 <= i < |m.queue| :: m.queue[i] !in m.added && m.queue[i] !in m.held)
    && (forall i, j | 0 <= i < j < |m.queue| :: m.queue[i] != m.queue[j])
  }

  ghost predicate Counts(m: Mutex) {
    && (m.queue != [] ==> m.count == 0)
    // conservation
    && m.count + m.waiting + InFlight(m) == 1 + Pending(m)
    && m.waiting >= (if m.release.Undoing? then -1 else 0)
    // token ledger: every token that exists was there at the start or was posted since
    && m.count + |m.held| + (if m.release.Posting? then 1 else 0) + m.leaves == 1 + m.posts
    // the queue is served in the order it was joined
    && m.joined == m.woken + m.queue
  }

  ghost predicate Inv(m: Mutex) { Separate(m) && Counts(m) }

  lemma SeparateStep(m: Mutex, s: Step)
    requires Separate(m) && Enabled(m, s)
    ensures Separate(Apply(m, s))
  {
  }

  lemma CountsStep(m: Mutex, s: Step)
    requires Inv(m) && Enabled(m, s)
    ensures Counts(Apply(m, s))
  {
    match s
    case Add(t) => AddCounts(m, t);
    case Acquire(t) => AcquireCounts(m, t);
    case StartRelease => assert Counts(Apply(m, s));
    case FinishRelease => FinishCounts(m);
    case Leave(t) => LeaveCounts(m, t);
  }

  lemma AddCounts(m: Mutex, t: nat)
    requires Inv(m) && Enabled(m, Add(t))
    ensures Counts(Apply(m, Add(t)))
  {
  }

  lemma AcquireCounts(m: Mutex, t: nat)
    requires Inv(m) && Enabled(m, Acquire(t))
    ensures Counts(Apply(m, Acquire(t)))
  {
  }

  lemma FinishCounts(m: Mutex)
    requires Inv(m) && Enabled(m, FinishRelease)
    ensures Counts(Apply(m, FinishRelease))
  {
  }

  lemma LeaveCounts(m: Mutex, t: nat)
    requires Inv(m) && Enabled(m, Leave(t))
    ensures Counts(Apply(m, Leave(t)))
  {
  }

  lemma InvStep(m: Mutex, s: Step)
    requires Inv(m) && Enabled(m, s)
    ensures Inv(Apply(m, s))
  {
    SeparateStep(m, s);
    CountsStep(m, s);
  }

  // Runs

  function Next(m: Mutex, s: Step): Option<Mutex> {
    if Enabled(m, s) then Some(Apply(m, s)) else None
  }

  /** Every interleaving of any number of acquires and releases keeps the conservation law,
      so the semaphore's count never exceeds 1 by more than the number of pending threads. */
  lemma {:induction false} Conservation(steps: seq<Step>)
    requires Exec(Next, FRESH, steps).Some?
    ensures var m := Exec(Next, FRESH, steps).value;
            && Inv(m)
            && m.count + m.waiting + InFlight(m) == 1 + Pending(m)
            && m.count <= 1 + Pending(m)
            && m.count + |m.held| <= 1 + m.posts - m.leaves
  {
    if steps != [] {
      var init := steps[..|steps| - 1];
      Conservation(init);
      InvStep(Exec(Next, FRESH, init).value, steps[|steps| - 1]);
    }
  }

  /** mutex_release as a whole. */
  function Released(m: Mutex): Mutex
    requires m.release.Idle?
  {
    Apply(Apply(m, StartRelease), FinishRelease)
  }

  /** A blocked thread is never missed: while the queue is not empty, a release posts. */
  lemma BlockedIsSeen(m: Mutex)
    requires Inv(m) && m.release.Idle? && m.queue != []
    ensures m.waiting > 0
    ensures var n := Released(m);
            n.queue == m.queue[1..] && m.queue[0] in n.held && n.count == 0
  {
  }

  // "The count never goes above 1": when that is so.

  /** It is not so in general: one thread between its add and its take is enough. */
  lemma CountReachesTwo()
    ensures Exec(Next, FRESH, [Add(7), StartRelease, FinishRelease]).Some?
    ensures Exec(Next, FRESH, [Add(7), StartRelease, FinishRelease]).value.count == 2
  {
    var s1, s2, s3 := [Add(7)], [Add(7), StartRelease], [Add(7), StartRelease, FinishRelease];
    assert s1[..0] == [] && s2[..1] == s1 && s3[..2] == s2;
    assert Exec(Next, FRESH, []) == Some(FRESH);
    assert Exec(Next, FRESH, s1) == Some(Apply(FRESH, Add(7)));
  }

  /** A release lifts the count above 1 exactly when it finds a free token and a thread
      that has been counted but has not reached the semaphore. */
  lemma ReleaseOvershoots(m: Mutex)
    requires Inv(m) && m.release.Idle? && m.count <= 1
    ensures Released(m).count > 1 <==> m.count == 1 && m.added != {}
  {
    assert m.added != {} <==> |m.added| > 0;
  }

  /** A step of the system in which an acquire is one step, as if the add and the take could
      not be separated. */
  datatype CoarseStep = AcquireAtOnce(t: nat) | Fine(s: Step)

  predicate CoarseEnabled(m: Mutex, c: CoarseStep) {
    match c
    case AcquireAtOnce(t) => Enabled(m, Add(t))
    case Fine(s) => !s.Add? && !s.Acquire? && Enabled(m, s)
  }

  function CoarseApply(m: Mutex, c: CoarseStep): Mutex
    requires CoarseEnabled(m, c)
  {
    match c
    case AcquireAtOnce(t) => Apply(Apply(m, Add(t)), Acquire(t))
    case Fine(s) => Apply(m, s)
  }

  function CoarseNext(m: Mutex, c: CoarseStep): Option<Mutex> {
    if CoarseEnabled(m, c) then Some(CoarseApply(m, c)) else None
  }

  /** With one-step acquires the header comment's bound holds in every run, even though the
      interrupt handler releases tokens it never took. */
  lemma {:induction false} CoarseCountBound(steps: seq<CoarseStep>)
    requires Exec(CoarseNext, FRESH, steps).Some?
    ensures var m := Exec(CoarseNext, FRESH, steps).value; Inv(m) && m.added == {} && m.count <= 1
  {
    if steps != [] {
      var init := steps[..|steps| - 1];
      CoarseCountBound(init);
      var m, c := Exec(CoarseNext, FRESH, init).value, steps[|steps| - 1];
      if c.AcquireAtOnce? {
        InvStep(m, Add(c.t));
        InvStep(Apply(m, Add(c.t)), Acquire(c.t));
      } else {
        InvStep(m, c.s);
      }
    }
  }

  // Textbook use: only a holder releases, giving up its turn as it does.

  function HolderApply(m: Mutex, s: Step): Mutex
    requires Enabled(m, s) && (s.Leave? ==> m.release.Idle?)
  {
    if s.Leave? then Apply(Apply(m, s), StartRelease) else Apply(m, s)
  }

  function HolderNext(m: Mutex, s: Step): Option<Mutex> {
    if Enabled(m, s) && !s.StartRelease? && (s.Leave? ==> m.release.Idle?)
    then Some(HolderApply(m, s)) else None
  }

  ghost predicate Exclusive(m: Mutex) {
    Inv(m) && !m.release.Undoing? && m.count + |m.held| + InFlight(m) == 1
  }

  lemma HolderStep(m: Mutex, s: Step)
    requires Exclusive(m) && HolderNext(m, s).Some?
    ensures Exclusive(HolderApply(m, s))
  {
    InvStep(m, s);
    if s.Leave? {
      InvStep(Apply(m, s), StartRelease);
    }
  }

  /** If only holders release, the mutex excludes: at most one thread holds it, the count stays
      at most 1 however acquires interleave, and no release ever has to be undone. */
  lemma {:induction false} HolderExclusion(steps: seq<Step>)
    requires Exec(HolderNext, FRESH, steps).Some?
    ensures var m := Exec(HolderNext, FRESH, steps).value;
            && Inv(m) && !m.release.Undoing?
            && m.count + |m.held| + InFlight(m) == 1
            && (forall t, u | t in m.held && u in m.held :: t == u)
  {
    if steps != [] {
      HolderExclusion(steps[..|steps| - 1]);
      HolderStep(Exec(HolderNext, FRESH, steps[..|steps| - 1]).value, steps[|steps| - 1]);
    }
    AtMostOne(Exec(HolderNext, FRESH, steps).value.held);
  }

  lemma AtMostOne(held: set<nat>)
    requires |held| <= 1
    ensures forall t, u | t in held && u in held :: t == u
  {
    forall t, u | t in held && u in held ensures t == u {
      if t != u { Subset({t, u}, held); }
    }
  }

  lemma Subset(a: set<nat>, b: set<nat>)
    requires a <= b
    ensures |a| <= |b|
  {
    assert b == a + (b - a);
  }

  // Where the threads are, for callers that follow a few of them

  ghost predicate Waits(m: Mutex, added: set<nat>, queue: seq<nat>, held: set<nat>) {
    m.added == added && m.queue == queue && m.held == held
  }

  lemma HeldStays(m: Mutex, t: nat)
    requires m.release.Idle? && t in m.held
    ensures t in Released(m).held
  {
  }

  lemma ReleaseNobody(m: Mutex, added: set<nat>, held: set<nat>)
    requires m.release.Idle? && Waits(m, added, [], held)
    ensures Waits(Released(m), added, [], held)
  {
  }

  lemma WakeFirst(m: Mutex, t: nat)
    requires m.release.Idle? && Waits(m, {}, [t], {}) && m.waiting > 0
    ensures Waits(Released(m), {}, [], {t})
  {
  }

  /** The mutex as the driver has it: a kernel semaphore and the driver's counter. */
  class DriverMutex {
    var sem: nat                   // free tokens,
    var blocked: seq<nat>          // and the threads that wait for one
    var waitingCount: int

    ghost predicate Shows(m: Mutex) reads this {
      sem == m.count && blocked == m.queue && waitingCount == m.waiting
    }

    /** mutex_create */
    constructor Create()
      ensures Shows(FRESH) && sem == 1 && blocked == [] && waitingCount == 0
    {
      sem, blocked, waitingCount := 1, [], 0;
    }

    /** mutex_acquire, first step */
    method AddWaiter(ghost m: Mutex, t: nat)
      requires Shows(m) && Enabled(m, Add(t))
      modifies this
      ensures Shows(Apply(m, Add(t)))
      ensures waitingCount == old(waitingCount) + 1 && sem == old(sem) && blocked == old(blocked)
    {
      waitingCount := waitingCount + 1;
    }

    /** mutex_acquire, second step: take a token or join the queue */
    method Take(ghost m: Mutex, t: nat) returns (granted: bool)
      requires Shows(m) && Enabled(m, Acquire(t))
      modifies this
      ensures Shows(Apply(m, Acquire(t)))
      ensures granted == (old(sem) > 0)
      ensures sem == old(sem) - (if granted then 1 else 0) && waitingCount == old(waitingCount)
      ensures blocked == if granted then old(blocked) else old(blocked) + [t]
    {
      granted := sem > 0;
      if granted {
        sem := sem - 1;
      } else {
        blocked := blocked + [t];
      }
    }

    /** mutex_release: unless nobody has been counted in, a token goes to the thread that has waited longest, or back
        to the semaphore. */
    method Release(ghost m: Mutex) returns (unblocked: bool)
      requires Shows(m) && m.release.Idle?
      modifies this
      ensures Shows(Released(m)) && unblocked == (old(waitingCount) > 0)
      ensures waitingCount == old(waitingCount) - if unblocked then 1 else 0
      ensures if unblocked && old(blocked) != [] then sem == old(sem) && blocked == old(blocked)[1..]
              else sem == old(sem) + (if unblocked then 1 else 0) && blocked == old(blocked)
    {
      waitingCount := waitingCount - 1;
      if waitingCount + 1 > 0 {
        if blocked == [] { sem := sem + 1; } else { blocked := blocked[1..]; }
        return true;
      } else {
        waitingCount := waitingCount + 1;
        return false;
      }
    }
  }
}
