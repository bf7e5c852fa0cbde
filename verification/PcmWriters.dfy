/**
 Any number of threads in pcm_write at once, as the machine runs them: each goes through the pieces
 of the loop one after the other, with its local variables, and between any two pieces other
 threads, the card and the interrupt handler may do whatever is their turn.
 */
module PcmWriters {
  import opened Runs
  import opened Bytes
  import M = CountingMutex
  import R = Ring
  import P = Playback
  import D = PcmPlayback
  import opened PlaybackRuns

  /** Where in the loop a thread is. */
  datatype Place =
    | AtTop                            // at the test of the loop
    | Counted                          // in mutex_acquire, counted
    | Blocked                          // in mutex_acquire, waiting for a token
    | InTurn                           // has the mutex
    | Copying(dest: nat, n: nat)       // wr_dest and available_block, before the memcpy

  /** The local variables of a call: data as an offset into user memory, and to_write as the rest of
      the range. */
  datatype Call = Call(start: nat, from: nat, upto: nat, at: Place)

  // The meaning of the code: what each piece of a call does to the device and to the call

  /** The count is a signed 32-bit int in the loop. */
  function Started(from: nat, count: nat): Call {
    Call(from, from, if count < INT_LIMIT then from + count else from, AtTop)
  }

  /** The test at the top of the loop fails. */
  predicate Returns(c: Call) { c.at.AtTop? && c.from == c.upto }

  ghost predicate CanGo(p: P.Play, t: nat, c: Call) {
    match c.at
    case AtTop => if c.from == c.upto then P.Enabled(p, P.End(t)) else CanQueue(p, t)
    case Counted => t in p.ring.mutex.added
    case Blocked => true
    case InTurn => CanTakeTurn(p, t)
    case Copying(dest, n) => CanLand(p, t)
  }

  /** The device after the next piece of t's call. */
  function Gone(p: P.Play, t: nat, c: Call): P.Play
    requires CanGo(p, t, c)
  {
    match c.at
    case AtTop => if c.from == c.upto then P.DoEnd(p, t) else Queued(p, M.Apply(p.ring.mutex, M.Add(t)))
    case Counted => Queued(p, M.Apply(p.ring.mutex, M.Acquire(t)))
    case Blocked => p
    case InTurn => Turn(p, t)
    case Copying(dest, n) => Landed(p, t)
  }

  /** What t remembers of its reservation. */
  function Reserved(p: P.Play, t: nat, wr1: nat, wr2: nat): Place
    requires CanTakeTurn(p, t)
  {
    Copying((if p.ring.cur.One? then wr1 else wr2) + p.ring.used, BlockSize(p, t))
  }

  /** The call after that piece; none if it has returned.  A blocked thread can go on once it is no longer in
      the semaphore's queue. */
  function Moved(p: P.Play, t: nat, c: Call, wr1: nat, wr2: nat): Option<Call>
    requires CanGo(p, t, c)
  {
    match c.at
    case AtTop => if c.from == c.upto then None else Some(c.(at := Counted))
    case Counted => Some(c.(at := if p.ring.mutex.count > 0 then InTurn else Blocked))
    case Blocked => Some(if t in p.ring.mutex.queue then c else c.(at := InTurn))
    case InTurn => Some(c.(at := Reserved(p, t, wr1, wr2)))
    case Copying(dest, n) => Some(c.(from := c.from + n, at := AtTop))
  }

  /** The table of calls with one of them moved on. */
  function Put(calls: map<nat, Call>, t: nat, next: Option<Call>): map<nat, Call> {
    if next.None? then calls - {t} else calls[t := next.value]
  }

  datatype Event =
    | Enter(t: nat, from: nat, count: nat)   // a thread calls pcm_write
    | Go(t: nat)                             // a thread runs its next piece
    | Play                                   // the card plays a byte
    | Interrupt                              // the handler is called

  datatype Request = Request(t: nat, from: nat, count: nat)
  datatype Result = Result(t: nat, written: int)

  /** The device, the calls in progress, and the calls made and returned so far. */
  datatype World = World(p: P.Play, calls: map<nat, Call>, made: seq<Request>, done: seq<Result>)

  ghost function Entered(w: World, t: nat, from: nat, count: nat, user: seq<byte>): World
    requires t !in w.p.ring.todo && from + count <= |user|
  {
    World(P.DoBegin(w.p, t, user[from..from + count]), w.calls[t := Started(from, count)],
          w.made + [Request(t, from, count)], w.done)
  }

  ghost function WentOn(w: World, t: nat, wr1: nat, wr2: nat): World
    requires t in w.calls && CanGo(w.p, t, w.calls[t])
  {
    var c := w.calls[t];
    World(Gone(w.p, t, c), Put(w.calls, t, Moved(w.p, t, c, wr1, wr2)), w.made,
          if Returns(c) then w.done + [Result(t, c.from - c.start)] else w.done)
  }

  /** What an event does.  What cannot happen then does nothing: a thread that is in a call does not make
      another, nor one that is not go on. */
  ghost function After(w: World, e: Event, user: seq<byte>, wr1: nat, wr2: nat): World {
    match e
    case Enter(t, from, count) =>
      if t !in w.calls && t !in w.p.ring.todo && from + count <= |user| then Entered(w, t, from, count, user) else w
    case Go(t) => if t in w.calls && CanGo(w.p, t, w.calls[t]) then WentOn(w, t, wr1, wr2) else w
    case Play => if P.CanFetch(w.p) then w.(p := P.DoFetch(w.p)) else w
    case Interrupt => if CanServe(w.p) then w.(p := Served(w.p)) else w
  }

  ghost function AfterAll(w: World, schedule: seq<Event>, user: seq<byte>, wr1: nat, wr2: nat): World {
    if schedule == [] then w else
    After(AfterAll(w, schedule[..|schedule| - 1], user, wr1, wr2), schedule[|schedule| - 1], user, wr1, wr2)
  }

  // What a thread's calls amount to

  /** The bytes t's calls were for, one call after the other. */
  function Passed(made: seq<Request>, t: nat, user: seq<byte>): seq<byte> {
    if made == [] then [] else
    var rest, last := Passed(made[..|made| - 1], t, user), made[|made| - 1];
    if last.t == t && last.from + last.count <= |user|
    then rest + (if last.count < 0x8000_0000 then user[last.from..last.from + last.count] else []) else rest
  }

  /** How many bytes each of them was for. */
  function Lengths(made: seq<Request>, t: nat): seq<int> {
    if made == [] then [] else
    var rest, last := Lengths(made[..|made| - 1], t), made[|made| - 1];
    if last.t == t then rest + [if last.count < 0x8000_0000 then last.count else 0] else rest
  }

  /** What t's calls have returned. */
  function Counts(done: seq<Result>, t: nat): seq<int> {
    if done == [] then [] else
    var rest, last := Counts(done[..|done| - 1], t), done[|done| - 1];
    if last.t == t then rest + [last.written] else rest
  }

  /** What t's call in progress has passed in and not had accepted yet. */
  function Pending(calls: map<nat, Call>, t: nat, user: seq<byte>): seq<byte> {
    if t !in calls then [] else
    var c := calls[t];
    var at := c.from + if c.at.Copying? then c.at.n else 0;
    if at <= c.upto <= |user| then user[at..c.upto] else []
  }

  /** What the call in progress will return. */
  function Current(calls: map<nat, Call>, t: nat): seq<int> {
    if t in calls then [calls[t].upto - calls[t].start] else []
  }

  /** Of t's calls every byte is in the stream, in order and once, or still to be accepted from the call in
      progress; and each call that has returned has reported the number of its bytes. */
  ghost predicate Delivered(w: World, user: seq<byte>, t: nat) {
    && Project(w.p.stream, t) + Pending(w.calls, t, user) == Passed(w.made, t, user)
    && Counts(w.done, t) + Current(w.calls, t) == Lengths(w.made, t)
  }

  /** The device's account of t agrees with the calls it has made. */
  ghost predicate Agrees(supplied: map<nat, seq<byte>>, calls: map<nat, Call>, made: seq<Request>, done: seq<Result>,
                         user: seq<byte>, t: nat) {
    && P.Supplied(supplied, t) == Passed(made, t, user)
    && Counts(done, t) + Current(calls, t) == Lengths(made, t)
  }

  ghost predicate Tally(w: World, user: seq<byte>, t: nat) {
    Agrees(w.p.supplied, w.calls, w.made, w.done, user, t)
  }

  lemma TallyStep(w: World, e: Event, user: seq<byte>, wr1: nat, wr2: nat, t: nat)
    requires Tally(w, user, t)
    ensures Tally(After(w, e, user, wr1, wr2), user, t)
  {
    hide WentOn, Entered;
    match e
    case Enter(u, from, count) =>
      if u !in w.calls && u !in w.p.ring.todo && from + count <= |user| { TallyEnter(w, u, from, count, user, t); }
    case Go(u) =>
      if u in w.calls && CanGo(w.p, u, w.calls[u]) { TallyGo(w, u, user, wr1, wr2, t); }
    case Play => if P.CanFetch(w.p) { P.FetchFrame(w.p); }
    case Interrupt =>
  }

  lemma MadeOne(made: seq<Request>, r: Request, t: nat, user: seq<byte>)
    requires r.from + r.count <= |user|
    ensures Passed(made + [r], t, user) ==
            Passed(made, t, user) + if r.t == t then P.ToWrite(user[r.from..r.from + r.count]) else []
    ensures Lengths(made + [r], t) ==
            Lengths(made, t) + if r.t == t then [if r.count < INT_LIMIT then r.count else 0] else []
  {
    assert (made + [r])[..|made|] == made;
  }

  lemma DoneOne(done: seq<Result>, r: Result, t: nat)
    ensures Counts(done + [r], t) == Counts(done, t) + if r.t == t then [r.written] else []
  {
    assert (done + [r])[..|done|] == done;
  }

  lemma TallyEnter(w: World, u: nat, from: nat, count: nat, user: seq<byte>, t: nat)
    requires Tally(w, user, t) && u !in w.calls && u !in w.p.ring.todo && from + count <= |user|
    ensures Tally(Entered(w, u, from, count, user), user, t)
  {
    hide R.Apply, Agrees;
    AgreesEnter(w.p.supplied, w.calls, w.made, w.done, user, t, u, from, count,
                Entered(w, u, from, count, user).p.supplied);
  }

  lemma AgreesEnter(supplied: map<nat, seq<byte>>, calls: map<nat, Call>, made: seq<Request>, done: seq<Result>,
                    user: seq<byte>, t: nat, u: nat, from: nat, count: nat, supplied': map<nat, seq<byte>>)
    requires Agrees(supplied, calls, made, done, user, t) && u !in calls && from + count <= |user|
    requires supplied' == supplied[u := P.Supplied(supplied, u) + P.ToWrite(user[from..from + count])]
    ensures Agrees(supplied', calls[u := Started(from, count)], made + [Request(u, from, count)], done, user, t)
  {
    hide Passed, Lengths, Counts;
    MadeOne(made, Request(u, from, count), t, user);
    NothingMore(Counts(done, t));
    var calls' := calls[u := Started(from, count)];
    if u == t {
      assert Current(calls, t) == [] && Current(calls', t) == [if count < INT_LIMIT then count else 0];
      assert P.Supplied(supplied', t) == P.Supplied(supplied, t) + P.ToWrite(user[from..from + count]);
    } else {
      assert Current(calls', t) == Current(calls, t) && P.Supplied(supplied', t) == P.Supplied(supplied, t);
      NothingMore(Passed(made, t, user));
      NothingMore(Lengths(made, t));
    }
  }

  lemma TallyGo(w: World, u: nat, user: seq<byte>, wr1: nat, wr2: nat, t: nat)
    requires Tally(w, user, t) && u in w.calls && CanGo(w.p, u, w.calls[u])
    ensures Tally(WentOn(w, u, wr1, wr2), user, t)
  {
    hide Gone, Agrees;
    var c := w.calls[u];
    GoSupplied(w.p, u, c);
    if Returns(c) {
      AgreesEnd(w.p.supplied, w.calls, w.made, w.done, user, t, u);
    } else {
      AgreesMoved(w.p.supplied, w.calls, w.made, w.done, user, t, u, Moved(w.p, u, c, wr1, wr2).value);
    }
  }

  lemma AgreesEnd(supplied: map<nat, seq<byte>>, calls: map<nat, Call>, made: seq<Request>, done: seq<Result>,
                  user: seq<byte>, t: nat, u: nat)
    requires Agrees(supplied, calls, made, done, user, t) && u in calls && Returns(calls[u])
    ensures Agrees(supplied, calls - {u}, made, done + [Result(u, calls[u].from - calls[u].start)], user, t)
  {
    hide Passed, Lengths, Counts;
    DoneOne(done, Result(u, calls[u].from - calls[u].start), t);
    NothingMore(Counts(done, t));
    NothingMore(Counts(done, t) + Current(calls, t));
  }

  lemma AgreesMoved(supplied: map<nat, seq<byte>>, calls: map<nat, Call>, made: seq<Request>, done: seq<Result>,
                    user: seq<byte>, t: nat, u: nat, c: Call)
    requires Agrees(supplied, calls, made, done, user, t) && u in calls
    requires c.start == calls[u].start && c.upto == calls[u].upto
    ensures Agrees(supplied, calls[u := c], made, done, user, t)
  {
  }

  lemma GoSupplied(p: P.Play, t: nat, c: Call)
    requires CanGo(p, t, c)
    ensures Gone(p, t, c).supplied == p.supplied
  {
    hide Turn, Landed, Queued, P.DoEnd;
    match c.at
    case AtTop => if c.from == c.upto { EndSupplied(p, t); } else { QueueSupplied(p, M.Apply(p.ring.mutex, M.Add(t))); }
    case Counted => QueueSupplied(p, M.Apply(p.ring.mutex, M.Acquire(t)));
    case Blocked =>
    case InTurn => TurnSupplied(p, t);
    case Copying(dest, n) => LandSupplied(p, t);
  }

  lemma EndSupplied(p: P.Play, t: nat)
    requires P.Enabled(p, P.End(t))
    ensures P.DoEnd(p, t).supplied == p.supplied
  {
  }

  lemma QueueSupplied(p: P.Play, m: M.Mutex)
    ensures Queued(p, m).supplied == p.supplied
  {
  }

  lemma TurnSupplied(p: P.Play, t: nat)
    requires CanTakeTurn(p, t)
    ensures Turn(p, t).supplied == p.supplied
  {
  }

  lemma LandSupplied(p: P.Play, t: nat)
    requires CanLand(p, t)
    ensures Landed(p, t).supplied == p.supplied
  {
  }

  lemma {:induction false} TallyAll(size: nat, schedule: seq<Event>, user: seq<byte>, wr1: nat, wr2: nat, t: nat)
    ensures Tally(AfterAll(World(P.Init(size), map[], [], []), schedule, user, wr1, wr2), user, t)
  {
    if schedule != [] {
      var init := schedule[..|schedule| - 1];
      TallyAll(size, init, user, wr1, wr2, t);
      TallyStep(AfterAll(World(P.Init(size), map[], [], []), init, user, wr1, wr2), schedule[|schedule| - 1],
                user, wr1, wr2, t);
    }
  }

  // What the device and the calls in progress know of each other

  /** A call in its place: at the mutex, and with a chunk in flight. */
  ghost predicate InPlace(m: M.Mutex, copying: map<nat, R.Chunk>, t: nat, at: Place, wr1: nat, wr2: nat) {
    match at
    case AtTop => t !in copying && M.Enabled(m, M.Add(t))
    case Counted => t !in copying && t in m.added
    case Blocked => t !in copying && (t in m.queue || t in m.held)
    case InTurn => t !in copying && t in m.held
    case Copying(dest, n) =>
      && t in copying && copying[t].len == n && M.Enabled(m, M.Add(t))
      && dest == (if copying[t].half.One? then wr1 else wr2) + copying[t].off
  }

  /** A call and what the system knows of it. */
  ghost predicate Matches(p: P.Play, t: nat, c: Call, user: seq<byte>, wr1: nat, wr2: nat) {
    && c.start <= c.from <= c.upto <= |user|
    && t in p.ring.todo && p.ring.todo[t] == c.upto - c.from
    && t in p.data && p.data[t] == user[c.from..c.upto]
    && InPlace(p.ring.mutex, p.ring.copying, t, c.at, wr1, wr2)
  }

  /** The calls in progress are those the system knows of. */
  ghost predicate All(p: P.Play, calls: map<nat, Call>, user: seq<byte>, wr1: nat, wr2: nat) {
    calls.Keys == p.ring.todo.Keys && forall t | t in calls :: Matches(p, t, calls[t], user, wr1, wr2)
  }

  /** What is known besides of every state of the device while nobody has the lock. */
  lemma Known(size: nat, trace: seq<P.Step>, p: P.Play)
    requires size > 0 && Exec(P.Next, P.Init(size), trace) == Some(p) && p.ring.lock.Free?
    ensures forall t: nat | t !in p.ring.todo :: M.Enabled(p.ring.mutex, M.Add(t)) && t !in p.ring.copying
    ensures forall t | t in p.ring.mutex.held :: t !in p.ring.mutex.added && t !in p.ring.mutex.queue
  {
    P.InitInv(size);
    P.InvRun(P.Init(size), trace);
    HeldOnly(p.ring.mutex);
  }

  lemma HeldOnly(m: M.Mutex)
    requires M.Separate(m)
    ensures forall t | t in m.held :: t !in m.added && t !in m.queue
  {
  }

  /** What the next piece of a call finds. */
  ghost predicate Ready(p: P.Play, t: nat, c: Call, user: seq<byte>, wr1: nat, wr2: nat) {
    && CanGo(p, t, c) && c.from <= c.upto
    && (c.at.InTurn? ==> p.ring.todo[t] == c.upto - c.from)
    && (c.at.Copying? ==>
          && c.at.n == p.ring.copying[t].len <= c.upto - c.from && c.from + c.at.n <= |user|
          && c.at.dest == (if p.ring.copying[t].half.One? then wr1 else wr2) + p.ring.copying[t].off
          && user[c.from..c.from + c.at.n] == p.data[t][..c.at.n])
  }

  /** A call in progress can always go on. */
  lemma GoKnown(size: nat, trace: seq<P.Step>, p: P.Play, t: nat, c: Call, user: seq<byte>, wr1: nat, wr2: nat)
    requires size > 0 && Exec(P.Next, P.Init(size), trace) == Some(p) && p.ring.lock.Free?
    requires Matches(p, t, c, user, wr1, wr2)
    ensures Ready(p, t, c, user, wr1, wr2)
  {
    D.Known(size, trace, p);
    if c.at.Copying? { SliceParts(user, c.from, c.upto, c.at.n); }
  }

  // What a piece leaves

  /** A thread elsewhere does not notice. */
  ghost predicate Unmoved(r: R.Ring, q: R.Ring, t: nat, wr1: nat, wr2: nat) {
    forall u: nat, at | u != t && InPlace(r.mutex, r.copying, u, at, wr1, wr2) ::
      InPlace(q.mutex, q.copying, u, at, wr1, wr2)
  }

  ghost predicate SameOthers(p: P.Play, q: P.Play, t: nat) {
    forall u | u != t && u in p.ring.todo && u in p.data ::
      u in q.ring.todo && q.ring.todo[u] == p.ring.todo[u] && u in q.data && q.data[u] == p.data[u]
  }

  ghost predicate Apart(p: P.Play, q: P.Play, t: nat, wr1: nat, wr2: nat) {
    Unmoved(p.ring, q.ring, t, wr1, wr2) && SameOthers(p, q, t) && q.supplied == p.supplied
  }

  lemma GoOthers(p: P.Play, t: nat, c: Call, wr1: nat, wr2: nat)
    requires CanGo(p, t, c) && t in p.ring.todo
    requires t in p.ring.mutex.held ==> t !in p.ring.mutex.added && t !in p.ring.mutex.queue
    ensures var q := Gone(p, t, c);
            && Apart(p, q, t, wr1, wr2)
            && q.ring.todo.Keys == if Returns(c) then p.ring.todo.Keys - {t} else p.ring.todo.Keys
  {
    match c.at
    case AtTop => if c.from == c.upto { EndOthers(p, t, wr1, wr2); } else { AddOthers(p, t, wr1, wr2); }
    case Counted => TakeOthers(p, t, wr1, wr2);
    case Blocked =>
    case InTurn => TurnOthers(p, t, wr1, wr2);
    case Copying(dest, n) => LandOthers(p, t, wr1, wr2);
  }

  lemma EndOthers(p: P.Play, t: nat, wr1: nat, wr2: nat)
    requires P.Enabled(p, P.End(t))
    ensures var q := P.DoEnd(p, t); Apart(p, q, t, wr1, wr2) && q.ring.todo.Keys == p.ring.todo.Keys - {t}
  {
  }

  lemma AddOthers(p: P.Play, t: nat, wr1: nat, wr2: nat)
    requires CanQueue(p, t)
    ensures var q := Queued(p, M.Apply(p.ring.mutex, M.Add(t))); Apart(p, q, t, wr1, wr2) && q.ring.todo == p.ring.todo
  {
  }

  lemma TakeOthers(p: P.Play, t: nat, wr1: nat, wr2: nat)
    requires t in p.ring.mutex.added
    ensures var q := Queued(p, M.Apply(p.ring.mutex, M.Acquire(t)));
            Apart(p, q, t, wr1, wr2) && q.ring.todo == p.ring.todo
  {
  }

  lemma TurnOthers(p: P.Play, t: nat, wr1: nat, wr2: nat)
    requires CanTakeTurn(p, t) && t !in p.ring.mutex.added && t !in p.ring.mutex.queue
    ensures var q := Turn(p, t); Apart(p, q, t, wr1, wr2) && q.ring.todo == p.ring.todo
  {
  }

  lemma LandOthers(p: P.Play, t: nat, wr1: nat, wr2: nat)
    requires CanLand(p, t)
    ensures var q := Landed(p, t); Apart(p, q, t, wr1, wr2) && q.ring.todo.Keys == p.ring.todo.Keys
  {
  }

  /** The thread itself is where the code says. */
  lemma GoMatches(p: P.Play, t: nat, c: Call, user: seq<byte>, wr1: nat, wr2: nat)
    requires CanGo(p, t, c) && Matches(p, t, c, user, wr1, wr2) && !Returns(c)
    requires t in p.ring.mutex.held ==> t !in p.ring.mutex.added && t !in p.ring.mutex.queue
    requires c.at.Copying? ==> c.at.n <= c.upto - c.from
    ensures Matches(Gone(p, t, c), t, Moved(p, t, c, wr1, wr2).value, user, wr1, wr2)
  {
    match c.at
    case AtTop =>
    case Counted =>
    case Blocked =>
    case InTurn => TurnMatches(p, t, c, user, wr1, wr2);
    case Copying(dest, n) => LandMatches(p, t, c, user, wr1, wr2);
  }

  lemma TurnMatches(p: P.Play, t: nat, c: Call, user: seq<byte>, wr1: nat, wr2: nat)
    requires c.at.InTurn? && CanTakeTurn(p, t) && Matches(p, t, c, user, wr1, wr2)
    requires t !in p.ring.mutex.added && t !in p.ring.mutex.queue
    ensures Matches(Turn(p, t), t, Moved(p, t, c, wr1, wr2).value, user, wr1, wr2)
  {
  }

  lemma LandMatches(p: P.Play, t: nat, c: Call, user: seq<byte>, wr1: nat, wr2: nat)
    requires c.at.Copying? && CanLand(p, t) && Matches(p, t, c, user, wr1, wr2) && c.at.n <= c.upto - c.from
    ensures Matches(Landed(p, t), t, Moved(p, t, c, wr1, wr2).value, user, wr1, wr2)
  {
    SliceParts(user, c.from, c.upto, c.at.n);
  }

  lemma GoLeaves(p: P.Play, calls: map<nat, Call>, user: seq<byte>, wr1: nat, wr2: nat, t: nat, c: Call,
                 q: P.Play, next: Option<Call>)
    requires All(p, calls, user, wr1, wr2) && t in calls && c == calls[t] && CanGo(p, t, c)
    requires t in p.ring.mutex.held ==> t !in p.ring.mutex.added && t !in p.ring.mutex.queue
    requires c.at.Copying? ==> c.at.n <= c.upto - c.from
    requires q == Gone(p, t, c) && next == Moved(p, t, c, wr1, wr2)
    ensures All(q, Put(calls, t, next), user, wr1, wr2)
  {
    GoOthers(p, t, c, wr1, wr2);
    if !Returns(c) { GoMatches(p, t, c, user, wr1, wr2); }
    OthersMatch(p, calls, user, wr1, wr2, t, q, Put(calls, t, next));
  }

  lemma OthersMatch(p: P.Play, calls: map<nat, Call>, user: seq<byte>, wr1: nat, wr2: nat, t: nat, q: P.Play,
                    calls': map<nat, Call>)
    requires All(p, calls, user, wr1, wr2) && Unmoved(p.ring, q.ring, t, wr1, wr2) && SameOthers(p, q, t)
    requires calls'.Keys == q.ring.todo.Keys
    requires forall u | u in calls' && u != t :: u in calls && calls'[u] == calls[u]
    requires t in calls' ==> Matches(q, t, calls'[t], user, wr1, wr2)
    ensures All(q, calls', user, wr1, wr2)
  {
    forall u | u in calls' && u != t ensures Matches(q, u, calls'[u], user, wr1, wr2) {
      assert Matches(p, u, calls[u], user, wr1, wr2);
    }
  }

  lemma BeginLeaves(p: P.Play, calls: map<nat, Call>, user: seq<byte>, wr1: nat, wr2: nat,
                    t: nat, from: nat, count: nat)
    requires All(p, calls, user, wr1, wr2) && t !in calls && from + count <= |user|
    requires M.Enabled(p.ring.mutex, M.Add(t)) && t !in p.ring.copying
    ensures All(P.DoBegin(p, t, user[from..from + count]), calls[t := Started(from, count)], user, wr1, wr2)
  {
    var q := P.DoBegin(p, t, user[from..from + count]);
    OthersMatch(p, calls, user, wr1, wr2, t, q, calls[t := Started(from, count)]);
  }

  /** The interrupt leaves everybody in place, except that the first in the queue may have been woken. */
  lemma ServiceLeaves(p: P.Play, calls: map<nat, Call>, user: seq<byte>, wr1: nat, wr2: nat)
    requires All(p, calls, user, wr1, wr2) && CanServe(p)
    ensures All(Served(p), calls, user, wr1, wr2)
  {
    var q := Served(p);
    forall u | u in calls ensures Matches(q, u, calls[u], user, wr1, wr2) {
      assert Matches(p, u, calls[u], user, wr1, wr2);
      ServicePlace(p, u, calls[u].at, wr1, wr2);
    }
  }

  lemma ServicePlace(p: P.Play, u: nat, at: Place, wr1: nat, wr2: nat)
    requires CanServe(p) && InPlace(p.ring.mutex, p.ring.copying, u, at, wr1, wr2)
    ensures var q := Served(p);
            && InPlace(q.ring.mutex, q.ring.copying, u, at, wr1, wr2)
            && q.ring.todo == p.ring.todo && q.data == p.data && q.supplied == p.supplied
  {
  }

  lemma FetchLeaves(p: P.Play, calls: map<nat, Call>, user: seq<byte>, wr1: nat, wr2: nat)
    requires All(p, calls, user, wr1, wr2) && P.CanFetch(p)
    ensures All(P.DoFetch(p), calls, user, wr1, wr2)
  {
    P.FetchFrame(p);
    var q := P.DoFetch(p);
    forall u | u in calls ensures Matches(q, u, calls[u], user, wr1, wr2) {
      assert Matches(p, u, calls[u], user, wr1, wr2);
    }
  }

  /** What has not been accepted of a call. */
  lemma RestIsPending(p: P.Play, calls: map<nat, Call>, user: seq<byte>, wr1: nat, wr2: nat, t: nat)
    requires All(p, calls, user, wr1, wr2) && P.DataInv(p.data, p.ring.todo)
    requires forall u | u in p.ring.copying :: CanLand(p, u)
    ensures P.Rest(p.data, p.ring.copying, t) == Pending(calls, t, user)
  {
    if t in calls {
      var c := calls[t];
      assert Matches(p, t, c, user, wr1, wr2);
      if c.at.Copying? { SliceParts(user, c.from, c.upto, c.at.n); }
    }
  }

  lemma WorldDelivers(size: nat, trace: seq<P.Step>, w: World, schedule: seq<Event>, user: seq<byte>,
                      wr1: nat, wr2: nat, t: nat)
    requires size > 0 && Exec(P.Next, P.Init(size), trace) == Some(w.p) && w.p.ring.lock.Free?
    requires All(w.p, w.calls, user, wr1, wr2)
    requires w == AfterAll(World(P.Init(size), map[], [], []), schedule, user, wr1, wr2)
    ensures Delivered(w, user, t)
  {
    TallyAll(size, schedule, user, wr1, wr2, t);
    D.Known(size, trace, w.p);
    StreamOf(size, trace, w.p, t);
    RestIsPending(w.p, w.calls, user, wr1, wr2, t);
  }

  lemma StreamOf(size: nat, trace: seq<P.Step>, p: P.Play, t: nat)
    requires size > 0 && Exec(P.Next, P.Init(size), trace) == Some(p)
    ensures P.DataInv(p.data, p.ring.todo)
    ensures Project(p.stream, t) + P.Rest(p.data, p.ring.copying, t) == P.Supplied(p.supplied, t)
  {
    P.InitInv(size);
    P.InvRun(P.Init(size), trace);
  }

  // The code

  method Queues(device: D.Device, t: nat) returns (queued: bool)
    requires device.Valid()
    ensures queued == (t in device.model.ring.mutex.queue) == (t in device.mutex.blocked)
  {
    queued := t in device.mutex.blocked;
  }

  /** mutex_acquire, the semaphore. */
  method Take(device: D.Device, t: nat) returns (at: Place)
    requires device.Valid() && t in device.model.ring.mutex.added
    modifies device, device.mutex
    ensures device.Valid()
    ensures device.model == Queued(old(device.model), M.Apply(old(device.model).ring.mutex, M.Acquire(t)))
    ensures at == if old(device.model).ring.mutex.count > 0 then InTurn else Blocked
    ensures at == if old(device.mutex.sem) > 0 then InTurn else Blocked
  {
    var granted := device.TakeSem(t);
    at := if granted then InTurn else Blocked;
  }

  /** The turn under the spinlock, and what the thread remembers of it. */
  method Reserve(device: D.Device, t: nat, toWrite: nat) returns (at: Place)
    requires device.Valid() && CanTakeTurn(device.model, t) && toWrite == device.model.ring.todo[t]
    modifies device, device.mutex
    ensures device.Valid() && device.model == Turn(old(device.model), t)
    ensures at == Reserved(old(device.model), t, device.wr1, device.wr2)
    ensures var space := device.wrSize - old(device.wasWritten);
            at == Copying(old(device.wrCur) + old(device.wasWritten), if space > toWrite then toWrite else space)
  {
    var dest, n := device.TakeTurn(t, toWrite);
    at := Copying(dest, n);
  }

  /** The test at the top of the loop, and what comes of it. */
  method Test(device: D.Device, t: nat, c: Call) returns (next: Option<Call>)
    requires device.Valid() && c.at.AtTop? && CanGo(device.model, t, c)
    modifies device, device.mutex
    ensures device.Valid() && device.model == Gone(old(device.model), t, c)
    ensures next == if c.from == c.upto then None else Some(c.(at := Counted))
  {
    if c.from == c.upto {
      device.EndCall(t);
      next := None;
    } else {
      device.AddWaiter(t);
      next := Some(c.(at := Counted));
    }
  }

  /** The memcpy, and the pointer updates after it. */
  method Copy(device: D.Device, user: array<byte>, t: nat, c: Call) returns (c': Call)
    requires device.Valid() && user != device.area && c.at.Copying?
    requires Ready(device.model, t, c, user[..], device.wr1, device.wr2)
    modifies device, device.area
    ensures device.Valid() && device.model == Landed(old(device.model), t)
    ensures c' == c.(from := c.from + c.at.n, at := AtTop)
    ensures c.from + c.at.n <= user.Length && c.at.dest + c.at.n <= device.area.Length
    ensures device.area[..] == Splice(old(device.area[..]), c.at.dest, user[c.from..c.from + c.at.n])
  {
    device.CopyBlock(t, user, c.from, c.at.dest, c.at.n);
    c' := c.(from := c.from + c.at.n, at := AtTop);
  }

  /** A thread runs the next piece of its call, with any number of other threads in theirs. */
  method Step(device: D.Device, user: array<byte>, t: nat, c: Call) returns (next: Option<Call>)
    requires device.Valid() && user != device.area && Ready(device.model, t, c, user[..], device.wr1, device.wr2)
    modifies device, device.mutex, device.area
    ensures device.Valid() && device.model == Gone(old(device.model), t, c)
    ensures next == Moved(old(device.model), t, c, device.wr1, device.wr2)
    // from the top either out of the loop or to the mutex; there with a token on, and without one only once woken;
    // in its turn it takes what there is or what it needs, and after the copy it is at the top again
    ensures c.at.AtTop? ==> next == if c.from == c.upto then None else Some(c.(at := Counted))
    ensures c.at.Counted? ==> next == Some(c.(at := if old(device.mutex.sem) > 0 then InTurn else Blocked))
    ensures c.at.Blocked? ==> next == Some(if t in old(device.mutex.blocked) then c else c.(at := InTurn))
    ensures c.at.InTurn? ==>
              var space := device.wrSize - old(device.wasWritten);
              next == Some(c.(at := Copying(old(device.wrCur) + old(device.wasWritten),
                                            if space > c.upto - c.from then c.upto - c.from else space)))
    ensures c.at.Copying? ==>
              && next == Some(c.(from := c.from + c.at.n, at := AtTop))
              && c.from + c.at.n <= user.Length && c.at.dest + c.at.n <= device.area.Length
              && device.area[..] == Splice(old(device.area[..]), c.at.dest, user[c.from..c.from + c.at.n])
    ensures !c.at.Copying? ==> device.area[..] == old(device.area[..])
  {
    hide D.Device.Valid, Turn, Landed, Queued, Reserved, CanTakeTurn, CanLand;
    match c.at
    case AtTop =>
      next := Test(device, t, c);
    case Counted =>
      var at := Take(device, t);
      next := Some(c.(at := at));
    case Blocked =>
      var queued := Queues(device, t);
      next := Some(if queued then c else c.(at := InTurn));
    case InTurn =>
      var at := Reserve(device, t, c.upto - c.from);
      next := Some(c.(at := at));
    case Copying(dest, n) =>
      var c' := Copy(device, user, t, c);
      next := Some(c');
  }

  ghost predicate Good(device: D.Device, user: array<byte>, calls: map<nat, Call>)
    reads device, device.mutex, device.area, user
  {
    device.Valid() && user != device.area && All(device.model, calls, user[..], device.wr1, device.wr2)
  }

  /** A thread that is not in a call makes one. */
  method Begin(device: D.Device, user: array<byte>, calls: map<nat, Call>, made: seq<Request>, ghost done: seq<Result>,
               t: nat, from: nat, count: nat)
    returns (calls': map<nat, Call>, made': seq<Request>)
    requires Good(device, user, calls) && t !in calls && from + count <= user.Length
    modifies device
    ensures Good(device, user, calls') && t !in old(device.model).ring.todo
    ensures World(device.model, calls', made', done) ==
            Entered(World(old(device.model), calls, made, done), t, from, count, user[..])
  {
    Known(device.wrSize, device.trace, device.model);
    BeginLeaves(device.model, calls, user[..], device.wr1, device.wr2, t, from, count);
    device.BeginCall(t, user[..][from..from + count]);
    calls' := calls[t := Started(from, count)];
    made' := made + [Request(t, from, count)];
  }

  /** A thread that is in a call goes on. */
  method GoOn(device: D.Device, user: array<byte>, calls: map<nat, Call>, t: nat) returns (next: Option<Call>)
    requires Good(device, user, calls) && t in calls
    modifies device, device.mutex, device.area
    ensures CanGo(old(device.model), t, calls[t]) && device.model == Gone(old(device.model), t, calls[t])
    ensures next == Moved(old(device.model), t, calls[t], device.wr1, device.wr2)
    ensures Good(device, user, Put(calls, t, next))
  {
    hide D.Device.Valid, Gone, Moved, CanGo, All, Put;
    ghost var p, u := device.model, user[..];
    GoesOn(device, user, calls, t);
    next := Step(device, user, t, calls[t]);
    assert user[..] == u;
  }

  lemma GoesOn(device: D.Device, user: array<byte>, calls: map<nat, Call>, t: nat)
    requires Good(device, user, calls) && t in calls
    ensures Ready(device.model, t, calls[t], user[..], device.wr1, device.wr2)
    ensures All(Gone(device.model, t, calls[t]),
                Put(calls, t, Moved(device.model, t, calls[t], device.wr1, device.wr2)), user[..],
                device.wr1, device.wr2)
  {
    GoKnown(device.wrSize, device.trace, device.model, t, calls[t], user[..], device.wr1, device.wr2);
    GoKept(device.wrSize, device.trace, device.model, calls, user[..], device.wr1, device.wr2, t);
  }

  lemma GoKept(size: nat, trace: seq<P.Step>, p: P.Play, calls: map<nat, Call>, user: seq<byte>, wr1: nat, wr2: nat,
               t: nat)
    requires size > 0 && Exec(P.Next, P.Init(size), trace) == Some(p) && p.ring.lock.Free?
    requires All(p, calls, user, wr1, wr2) && t in calls && Ready(p, t, calls[t], user, wr1, wr2)
    ensures All(Gone(p, t, calls[t]), Put(calls, t, Moved(p, t, calls[t], wr1, wr2)), user, wr1, wr2)
  {
    Known(size, trace, p);
    GoLeaves(p, calls, user, wr1, wr2, t, calls[t], Gone(p, t, calls[t]), Moved(p, t, calls[t], wr1, wr2));
  }

  /** The card plays a byte. */
  method PlayByte(device: D.Device, user: array<byte>, calls: map<nat, Call>)
    requires Good(device, user, calls)
    modifies device
    ensures Good(device, user, calls) && P.CanFetch(old(device.model)) && device.model == P.DoFetch(old(device.model))
  {
    D.Known(device.wrSize, device.trace, device.model);
    FetchLeaves(device.model, calls, user[..], device.wr1, device.wr2);
    var _ := device.Fetch();
  }

  /** The interrupt is served. */
  method Service(device: D.Device, user: array<byte>, calls: map<nat, Call>)
    requires Good(device, user, calls)
    modifies device, device.mutex, device.area
    ensures Good(device, user, calls) && CanServe(old(device.model)) && device.model == Served(old(device.model))
  {
    D.Known(device.wrSize, device.trace, device.model);
    ServiceLeaves(device.model, calls, user[..], device.wr1, device.wr2);
    var _ := device.PlaybackHandler();
  }

  method Continue(device: D.Device, user: array<byte>, calls: map<nat, Call>, ghost made: seq<Request>,
                  done: seq<Result>, t: nat)
    returns (calls': map<nat, Call>, done': seq<Result>)
    requires Good(device, user, calls) && t in calls
    modifies device, device.mutex, device.area
    ensures Good(device, user, calls') && CanGo(old(device.model), t, calls[t])
    ensures World(device.model, calls', made, done') ==
            WentOn(World(old(device.model), calls, made, done), t, device.wr1, device.wr2)
  {
    hide Good, Gone, Moved, CanGo, Put;
    var next := GoOn(device, user, calls, t);
    calls' := Put(calls, t, next);
    done' := if Returns(calls[t]) then done + [Result(t, calls[t].from - calls[t].start)] else done;
  }

  method Perform(device: D.Device, user: array<byte>, calls: map<nat, Call>, made: seq<Request>, done: seq<Result>,
                 e: Event)
    returns (calls': map<nat, Call>, made': seq<Request>, done': seq<Result>)
    requires Good(device, user, calls)
    modifies device, device.mutex, device.area
    ensures Good(device, user, calls')
    ensures World(device.model, calls', made', done') ==
            After(World(old(device.model), calls, made, done), e, user[..], device.wr1, device.wr2)
  {
    hide Good, CanGo, P.DoFetch, Served, Entered, WentOn;
    calls', made', done' := calls, made, done;
    match e
    case Enter(t, from, count) =>
      if t !in calls && from + count <= user.Length {
        calls', made' := Begin(device, user, calls, made, done, t, from, count);
      }
    case Go(t) =>
      if t in calls {
        calls', done' := Continue(device, user, calls, made, done, t);
      }
    case Play => PlayByte(device, user, calls);
    case Interrupt => Service(device, user, calls);
  }

  /** Any number of threads, in any order, with the card and the handler in between: the device, the calls in
      progress, and those that have been made and have returned are what the pieces of the code say, one after
      the other; and of every thread the stream holds, in order, what its calls have passed in so far. */
  method Run(device: D.Device, user: array<byte>, schedule: seq<Event>)
    returns (calls: map<nat, Call>, made: seq<Request>, done: seq<Result>)
    requires device.Valid() && user != device.area && device.model == P.Init(device.wrSize)
    modifies device, device.mutex, device.area
    ensures Good(device, user, calls)
    ensures World(device.model, calls, made, done) ==
            AfterAll(World(P.Init(device.wrSize), map[], [], []), schedule, user[..], device.wr1, device.wr2)
    ensures forall t: nat :: Delivered(World(device.model, calls, made, done), user[..], t)
  {
    ghost var start := World(device.model, map[], [], []);
    calls, made, done := map[], [], [];
    for i := 0 to |schedule|
      invariant Good(device, user, calls)
      invariant World(device.model, calls, made, done) ==
                AfterAll(start, schedule[..i], user[..], device.wr1, device.wr2)
    {
      assert schedule[..i + 1][..i] == schedule[..i];
      calls, made, done := Perform(device, user, calls, made, done, schedule[i]);
    }
    assert schedule[..|schedule|] == schedule;
    forall t: nat ensures Delivered(World(device.model, calls, made, done), user[..], t) {
      WorldDelivers(device.wrSize, device.trace, World(device.model, calls, made, done), schedule, user[..],
                    device.wr1, device.wr2, t);
    }
  }
}
