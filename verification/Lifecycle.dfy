/**
 Opening and closing the PCM device: the first client sets it up, the last one tears it down,
 and two kernel semaphores keep the two apart.

 The threads that open and close are interchangeable, so a state says how many of them are at
 each point of pcm_open and pcm_close.  One atomic operation per step, any number of threads,
 every open and close successful.
 */
module Lifecycle {
  import opened Runs

  datatype State = State(
    openCount: nat,
    init: nat, teardown: nat,      // init_sem, teardown_sem: free tokens
    // threads in pcm_open
    firstWait: nat,                // found open_count 0; before acquire_sem(teardown_sem)
    firstHold: nat,                // between that and its release
    setup: nat,                    // setting the device up
    nextWait: nat,                 // found open_count > 0; before acquire_sem(init_sem)
    nextHold: nat,                 // between that and its release
    // open handles
    open: nat,
    // threads in pcm_close
    closeWait: nat,                // before acquire_sem(teardown_sem)
    closeHold: nat,                // before the decrement
    tear: nat,                     // the last one: deleting the mutexes
    take: nat,                     // the last one: before acquire_sem(init_sem)
    closeEnd: nat,                 // before release_sem(teardown_sem)
    // History
    setups: nat, takes: nat
  )

  /** As setup_interwave creates the semaphores: nobody has the device open. */
  const CLOSED: State := State(0, 0, 1, 0, 0, 0, 0, 0, 0, 0, 0, 0, 0, 0, 0, 0)

  datatype Step =
    | Open            // atomic_add(&open_count, 1)
    | FirstAcquire    // acquire_sem(teardown_sem)
    | FirstRelease    // release_sem(teardown_sem)
    | SetupDone       // release_sem(init_sem)
    | NextAcquire     // acquire_sem(init_sem)
    | NextRelease     // release_sem(init_sem)
    | Close           // an open handle is closed
    | CloseAcquire    // acquire_sem(teardown_sem)
    | Decrement       // atomic_add(&open_count, -1)
    | TornDown        // the mutexes are deleted
    | Take            // acquire_sem(init_sem)
    | CloseRelease    // release_sem(teardown_sem)

  predicate Enabled(s: State, e: Step) {
    match e
    case Open => true
    case FirstAcquire => s.firstWait > 0 && s.teardown > 0
    case FirstRelease => s.firstHold > 0
    case SetupDone => s.setup > 0
    case NextAcquire => s.nextWait > 0 && s.init > 0
    case NextRelease => s.nextHold > 0
    case Close => s.open > 0
    case CloseAcquire => s.closeWait > 0 && s.teardown > 0
    case Decrement => s.closeHold > 0 && s.openCount > 0
    case TornDown => s.tear > 0
    case Take => s.take > 0 && s.init > 0
    case CloseRelease => s.closeEnd > 0
  }

  function Apply(s: State, e: Step): State
    requires Enabled(s, e)
  {
    match e
    case Open =>
      if s.openCount == 0 then s.(openCount := 1, firstWait := s.firstWait + 1)
      else s.(openCount := s.openCount + 1, nextWait := s.nextWait + 1)
    case FirstAcquire => s.(firstWait := s.firstWait - 1, teardown := s.teardown - 1, firstHold := s.firstHold + 1)
    case FirstRelease => s.(firstHold := s.firstHold - 1, teardown := s.teardown + 1, setup := s.setup + 1)
    case SetupDone => s.(setup := s.setup - 1, init := s.init + 1, open := s.open + 1, setups := s.setups + 1)
    case NextAcquire => s.(nextWait := s.nextWait - 1, init := s.init - 1, nextHold := s.nextHold + 1)
    case NextRelease => s.(nextHold := s.nextHold - 1, init := s.init + 1, open := s.open + 1)
    case Close => s.(open := s.open - 1, closeWait := s.closeWait + 1)
    case CloseAcquire => s.(closeWait := s.closeWait - 1, teardown := s.teardown - 1, closeHold := s.closeHold + 1)
    case Decrement =>
      if s.openCount == 1 then s.(openCount := 0, closeHold := s.closeHold - 1, tear := s.tear + 1)
      else s.(openCount := s.openCount - 1, closeHold := s.closeHold - 1, closeEnd := s.closeEnd + 1)
    case TornDown => s.(tear := s.tear - 1, take := s.take + 1)
    case Take => s.(take := s.take - 1, init := s.init - 1, closeEnd := s.closeEnd + 1, takes := s.takes + 1)
    case CloseRelease => s.(closeEnd := s.closeEnd - 1, teardown := s.teardown + 1)
  }

  function Next(s: State, e: Step): Option<State> {
    if Enabled(s, e) then Some(Apply(s, e)) else None
  }

  function First(s: State): nat { s.firstWait + s.firstHold + s.setup }
  function Last(s: State): nat { s.tear + s.take }

  /** The device is set up and nobody has begun to take that back. */
  predicate Live(s: State) { s.openCount > 0 && First(s) == 0 }

  ghost predicate Inv(s: State) {
    // teardown_sem is a lock, held by at most one thread
    && s.teardown + s.firstHold + s.closeHold + s.tear + s.take + s.closeEnd == 1
    // open_count counts the openers, the open handles and the closers before their decrement
    && s.openCount == s.firstWait + s.firstHold + s.setup + s.nextWait + s.nextHold + s.open + s.closeWait + s.closeHold
    && s.firstWait + s.firstHold + s.setup <= 1
    // a first opener keeps out of a teardown
    && (s.setup > 0 ==> s.tear == s.take == 0)
    && (s.tear > 0 || s.take > 0 ==> s.openCount == 0 || s.firstWait == 1)
    // init_sem is one token, there from a setup to the take of the last close
    && s.init + s.nextHold == s.setups - s.takes
    && (Live(s) ==> s.init + s.nextHold == 1)
    && (!Live(s) ==> s.init + s.nextHold == s.tear + s.take)
  }

  lemma InvStep(s: State, e: Step)
    requires Inv(s) && Enabled(s, e)
    ensures Inv(Apply(s, e))
  {
    if e.Open? || e.FirstAcquire? || e.FirstRelease? || e.SetupDone? {
      FirstOpenerStep(s, e);
    } else if e.NextAcquire? || e.NextRelease? || e.Close? || e.CloseAcquire? {
      NextOpenerStep(s, e);
    } else {
      CloserStep(s, e);
    }
  }

  lemma FirstOpenerStep(s: State, e: Step)
    requires Inv(s) && Enabled(s, e) && (e.Open? || e.FirstAcquire? || e.FirstRelease? || e.SetupDone?)
    ensures Inv(Apply(s, e))
  {
  }

  lemma NextOpenerStep(s: State, e: Step)
    requires Inv(s) && Enabled(s, e) && (e.NextAcquire? || e.NextRelease? || e.Close? || e.CloseAcquire?)
    ensures Inv(Apply(s, e))
  {
  }

  lemma CloserStep(s: State, e: Step)
    requires Inv(s) && Enabled(s, e) && (e.Decrement? || e.TornDown? || e.Take? || e.CloseRelease?)
    ensures Inv(Apply(s, e))
  {
  }

  lemma InvNext(s: State, e: Step, s': State)
    requires Inv(s) && Next(s, e) == Some(s')
    ensures Inv(s')
  {
    InvStep(s, e);
  }

  lemma InitInv(s: State)
    requires s == CLOSED
    ensures Inv(s)
  {
  }

  lemma {:induction false} InvRun(steps: seq<Step>)
    requires Exec(Next, CLOSED, steps).Some?
    ensures Inv(Exec(Next, CLOSED, steps).value)
  {
    if steps == [] {
      InitInv(Exec(Next, CLOSED, steps).value);
    } else {
      var init := steps[..|steps| - 1];
      InvRun(init);
      InvNext(Exec(Next, CLOSED, init).value, steps[|steps| - 1], Exec(Next, CLOSED, steps).value);
    }
  }

  /** In every interleaving of any number of opens and closes: a setup never overlaps a teardown,
      at most one setup is in progress, and init_sem, with the opener that may be holding it, is
      the number of setups not taken back, which is 0 or 1. */
  lemma SetupTeardownExclusion(steps: seq<Step>)
    requires Exec(Next, CLOSED, steps).Some?
    ensures var s := Exec(Next, CLOSED, steps).value;
            && !(s.setup > 0 && Last(s) > 0)
            && s.setup <= 1 && Last(s) <= 1
            && s.init + s.nextHold == s.setups - s.takes <= 1
  {
    InvRun(steps);
  }

  /** The last closer, which waits for init_sem with teardown_sem in its hand, gets it: the token
      is free, or with an opener that is about to put it back. */
  lemma LastCloserGetsToken(s: State)
    requires Inv(s) && s.take > 0
    ensures Enabled(s, Take) || (Enabled(s, NextRelease) && Enabled(Apply(s, NextRelease), Take))
  {
  }

  /** Threads inside pcm_open or pcm_close. */
  function Inside(s: State): nat {
    First(s) + s.nextWait + s.nextHold + s.closeWait + s.closeHold + Last(s) + s.closeEnd
  }

  /** Steps other than the beginning of a new call. */
  predicate Inner(e: Step) { e != Open && e != Close }

  /** No deadlock: as long as some thread is inside pcm_open or pcm_close, some such thread can
      go on. */
  lemma NoDeadlock(s: State)
    requires Inv(s)
    requires Inside(s) > 0
    ensures exists e: Step :: Inner(e) && Enabled(s, e)
  {
    if s.firstHold > 0 { assert Enabled(s, FirstRelease); }
    else if s.setup > 0 { assert Enabled(s, SetupDone); }
    else if s.nextHold > 0 { assert Enabled(s, NextRelease); }
    else if s.closeHold > 0 { assert Enabled(s, Decrement); }
    else if s.tear > 0 { assert Enabled(s, TornDown); }
    else if s.take > 0 { LastCloserGetsToken(s); assert Enabled(s, Take); }
    else if s.closeEnd > 0 { assert Enabled(s, CloseRelease); }
    else if s.firstWait > 0 { assert Enabled(s, FirstAcquire); }
    else if s.closeWait > 0 { assert Enabled(s, CloseAcquire); }
    else { assert Enabled(s, NextAcquire); }
  }

  /** The measure of what the threads inside pcm_open and pcm_close still have to do. */
  function Work(s: State): nat {
    3 * s.firstWait + 2 * s.firstHold + s.setup + 2 * s.nextWait + s.nextHold
    + 5 * s.closeWait + 4 * s.closeHold + 3 * s.tear + 2 * s.take + s.closeEnd
  }

  lemma StepsFinish(s: State, e: Step)
    requires Enabled(s, e) && Inner(e)
    ensures Work(Apply(s, e)) < Work(s)
  {
  }

  /** Every call returns once no new ones are made: from any state that can be reached, however
      the threads are scheduled, only so many steps are possible, and when no step is possible
      any more nobody is inside pcm_open or pcm_close. */
  lemma {:induction false} CallsReturn(s: State, steps: seq<Step>)
    requires Inv(s) && Exec(Next, s, steps).Some? && forall e | e in steps :: Inner(e)
    ensures var q := Exec(Next, s, steps).value;
            && Inv(q) && |steps| + Work(q) <= Work(s)
            && ((forall e: Step :: Inner(e) ==> !Enabled(q, e)) ==> Inside(q) == 0)
  {
    var q := Exec(Next, s, steps).value;
    if steps != [] {
      var init, e := steps[..|steps| - 1], steps[|steps| - 1];
      CallsReturn(s, init);
      assert Inner(e);
      InvNext(Exec(Next, s, init).value, e, q);
      StepsFinish(Exec(Next, s, init).value, e);
    }
    if Inside(q) > 0 {
      NoDeadlock(q);
    }
  }

  // "Nobody re-opens the device while it is being torn down": when that is so.

  /** An opener that is not the first takes the token exactly while the device is live or a last
      closer has not taken it yet; so it gets past a teardown exactly in the second case. */
  lemma OpenDuringTeardown(s: State)
    requires Inv(s) && s.nextWait > 0
    ensures s.init > 0 ==> Live(s) || Last(s) == 1
    ensures Enabled(s, NextAcquire) && !Live(s) <==> Last(s) == 1 && s.nextHold == 0
  {
  }

  /** A run that opens the device and begins the last close. */
  const CLOSING: seq<Step> := [Open, FirstAcquire, FirstRelease, SetupDone, Close, CloseAcquire, Decrement]

  lemma ClosingRun()
    ensures Exec(Next, CLOSED, CLOSING)
         == Some(CLOSED.(init := 1, teardown := 0, tear := 1, setups := 1))
  {
    var s1 := CLOSED.(openCount := 1, firstWait := 1);
    var s2 := CLOSED.(openCount := 1, teardown := 0, firstHold := 1);
    var s3 := CLOSED.(openCount := 1, setup := 1);
    var s4 := CLOSED.(openCount := 1, init := 1, open := 1, setups := 1);
    var s5 := s4.(open := 0, closeWait := 1);
    var s6 := s4.(open := 0, teardown := 0, closeHold := 1);
    Chain4(Next, CLOSED, Open, s1, FirstAcquire, s2, FirstRelease, s3, SetupDone, s4);
    Chain3(Next, s4, Close, s5, CloseAcquire, s6, Decrement,
           CLOSED.(init := 1, teardown := 0, tear := 1, setups := 1));
    ExecAppend(Next, CLOSED, [Open, FirstAcquire, FirstRelease, SetupDone], s4, [Close, CloseAcquire, Decrement]);
    assert CLOSING == [Open, FirstAcquire, FirstRelease, SetupDone] + [Close, CloseAcquire, Decrement];
  }

  /** It can happen: a first opener waits for the teardown to end, and a second one, which finds
      open_count at 1, takes the old token and returns before the teardown has ended. */
  lemma OpenReturnsDuringTeardown()
    ensures Exec(Next, CLOSED, CLOSING + [Open, Open, NextAcquire, NextRelease]).Some?
    ensures var s := Exec(Next, CLOSED, CLOSING + [Open, Open, NextAcquire, NextRelease]).value;
            s.open == 1 && Last(s) == 1 && s.firstWait == 1
  {
    ClosingRun();
    var s7 := CLOSED.(init := 1, teardown := 0, tear := 1, setups := 1);
    var s8 := s7.(openCount := 1, firstWait := 1);
    var s9 := s8.(openCount := 2, nextWait := 1);
    var s10 := s8.(openCount := 2, init := 0, nextHold := 1);
    var s11 := s8.(openCount := 2, open := 1);
    Chain4(Next, s7, Open, s8, Open, s9, NextAcquire, s10, NextRelease, s11);
    ExecAppend(Next, CLOSED, CLOSING, s7, [Open, Open, NextAcquire, NextRelease]);
  }
}
