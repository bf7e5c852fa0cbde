/**
 Any number of threads in pcm_read at once, as PcmWriters has it for pcm_write: each goes through the
 pieces of the loop, and between any two pieces other threads, the card and the interrupt handler
 may do whatever is their turn.
 */
module PcmReaders {
  import opened Runs
  import opened Bytes
  import M = CountingMutex
  import R = Ring
  import Rec = Record
  import D = PcmRecord
  import opened RecordRuns
  import opened W = PcmWriters

  // The meaning of the code.  The local variables of a call are those of pcm_write: the buffer as a range of
  // user memory, how far it is filled, and where in the loop the thread is.

  ghost predicate CanGo(p: Rec.Rec, t: nat, c: Call) {
    match c.at
    case AtTop => if c.from == c.upto then Rec.Enabled(p, Rec.End(t)) else CanQueue(p, t)
    case Counted => t in p.ring.mutex.added
    case Blocked => true
    case InTurn => CanTakeTurn(p, t)
    case Copying(src, n) => CanLand(p, t) && n == p.ring.copying[t].len && c.from + n <= c.upto
  }

  /** The device after the next piece of t's call. */
  function Gone(p: Rec.Rec, t: nat, c: Call): Rec.Rec
    requires CanGo(p, t, c)
  {
    match c.at
    case AtTop => if c.from == c.upto then Rec.DoEnd(p, t) else Queued(p, M.Apply(p.ring.mutex, M.Add(t)))
    case Counted => Queued(p, M.Apply(p.ring.mutex, M.Acquire(t)))
    case Blocked => p
    case InTurn => Turn(p, t)
    case Copying(src, n) => Landed(p, t)
  }

  /** User memory after that piece. */
  function Stored(p: Rec.Rec, t: nat, c: Call, user: seq<byte>): seq<byte>
    requires CanGo(p, t, c) && c.upto <= |user|
  {
    if c.at.Copying? then Splice(user, c.from, InHand(p, t)) else user
  }

  /** What t remembers of its reservation. */
  function Noted(p: Rec.Rec, t: nat, rd1: nat, rd2: nat): Place
    requires CanTakeTurn(p, t)
  {
    Copying((if p.ring.cur.One? then rd1 else rd2) + p.ring.used, BlockSize(p, t))
  }

  /** The call after that piece; none if it has returned. */
  function Moved(p: Rec.Rec, t: nat, c: Call, rd1: nat, rd2: nat): Option<Call>
    requires CanGo(p, t, c)
  {
    match c.at
    case AtTop => if c.from == c.upto then None else Some(c.(at := Counted))
    case Counted => Some(c.(at := if p.ring.mutex.count > 0 then InTurn else Blocked))
    case Blocked => Some(if t in p.ring.mutex.queue then c else c.(at := InTurn))
    case InTurn => Some(c.(at := Noted(p, t, rd1, rd2)))
    case Copying(src, n) => Some(c.(from := c.from + n, at := AtTop))
  }

  datatype Event =
    | Enter(t: nat, from: nat, count: nat)   // a thread calls pcm_read
    | Go(t: nat)                             // a thread runs its next piece
    | Hear                                   // the card stores a byte
    | Interrupt                              // the handler is called

  /** What a call has returned, in its buffer. */
  datatype Filled = Filled(t: nat, bytes: seq<byte>)

  /** The device, the calls in progress, user memory, and the calls made and returned so far. */
  datatype System = System(p: Rec.Rec, calls: map<nat, Call>, user: seq<byte>, made: seq<Request>, done: seq<Filled>)

  /** Callers have buffers of their own. */
  predicate Fits(calls: map<nat, Call>, from: nat, upto: nat) {
    forall u | u in calls :: calls[u].upto <= from || upto <= calls[u].start
  }

  ghost function Entered(w: System, t: nat, from: nat, count: nat): System
    requires t !in w.p.ring.todo
  {
    System(Rec.DoBegin(w.p, t, count), w.calls[t := Started(from, count)], w.user, w.made + [Request(t, from, count)],
          w.done)
  }

  ghost predicate GoesOn(w: System, t: nat) {
    t in w.calls && CanGo(w.p, t, w.calls[t]) && w.calls[t].start <= w.calls[t].upto <= |w.user|
  }

  ghost function WentOn(w: System, t: nat, rd1: nat, rd2: nat): System
    requires GoesOn(w, t)
  {
    var c := w.calls[t];
    System(Gone(w.p, t, c), Put(w.calls, t, Moved(w.p, t, c, rd1, rd2)), Stored(w.p, t, c, w.user), w.made,
          if Returns(c) then w.done + [Filled(t, w.user[c.start..c.upto])] else w.done)
  }

  /** What an event does.  What cannot happen then does nothing: a thread that is in a call does not make
      another, nor one with a buffer that is in use, nor does a thread go on that is not in a call. */
  ghost function After(w: System, e: Event, sound: nat -> byte, rd1: nat, rd2: nat): System {
    match e
    case Enter(t, from, count) =>
      if t !in w.calls && t !in w.p.ring.todo && from + count <= |w.user| && Fits(w.calls, from, from + count)
      then Entered(w, t, from, count) else w
    case Go(t) => if t in w.calls && GoesOn(w, t) then WentOn(w, t, rd1, rd2) else w
    case Hear => if Rec.CanCapture(w.p) then w.(p := Rec.DoCapture(w.p, sound(|w.p.captured|))) else w
    case Interrupt => if CanServe(w.p) then w.(p := Served(w.p)) else w
  }

  ghost function AfterAll(w: System, schedule: seq<Event>, sound: nat -> byte, rd1: nat, rd2: nat): System {
    if schedule == [] then w else
    After(AfterAll(w, schedule[..|schedule| - 1], sound, rd1, rd2), schedule[|schedule| - 1], sound, rd1, rd2)
  }

  // What a thread's calls amount to

  /** What t's calls have returned, one after the other. */
  function Given(done: seq<Filled>, t: nat): seq<byte> {
    if done == [] then [] else
    var rest, last := Given(done[..|done| - 1], t), done[|done| - 1];
    if last.t == t then rest + last.bytes else rest
  }

  /** How many bytes each of them has returned. */
  function Sizes(done: seq<Filled>, t: nat): seq<int> {
    if done == [] then [] else
    var rest, last := Sizes(done[..|done| - 1], t), done[|done| - 1];
    if last.t == t then rest + [|last.bytes|] else rest
  }

  /** What is in the buffer of t's call in progress. */
  function Part(calls: map<nat, Call>, t: nat, user: seq<byte>): seq<byte> {
    if t !in calls then [] else
    var c := calls[t];
    if c.start <= c.from <= |user| then user[c.start..c.from] else []
  }

  /** What t has been given is what its calls have returned and what is in the buffer of the one in progress; and
      each has returned as many bytes as it was asked for. */
  ghost predicate Agrees(got: map<nat, seq<byte>>, calls: map<nat, Call>, user: seq<byte>, made: seq<Request>,
                         done: seq<Filled>, t: nat) {
    && Rec.Got(got, t) == Given(done, t) + Part(calls, t, user)
    && Sizes(done, t) + Current(calls, t) == Lengths(made, t)
  }

  ghost predicate Tally(w: System, t: nat) { Agrees(w.p.got, w.calls, w.user, w.made, w.done, t) }

  predicate Apart(c: Call, d: Call) { c.upto <= d.start || d.upto <= c.start }

  ghost predicate Disjoint(calls: map<nat, Call>) {
    forall t, u {:trigger Apart(calls[t], calls[u])} | t in calls && u in calls && t != u :: Apart(calls[t], calls[u])
  }

  ghost predicate Bounded(calls: map<nat, Call>, limit: nat) {
    forall t | t in calls :: calls[t].start <= calls[t].from <= calls[t].upto <= limit
  }

  ghost predicate Buffers(w: System) { Disjoint(w.calls) && Bounded(w.calls, |w.user|) }

  lemma MoreBuffers(calls: map<nat, Call>, t: nat, from: nat, count: nat, limit: nat)
    requires Disjoint(calls) && Bounded(calls, limit) && t !in calls
    requires from + count <= limit && Fits(calls, from, from + count)
    ensures Disjoint(calls[t := Started(from, count)]) && Bounded(calls[t := Started(from, count)], limit)
  {
    var calls' := calls[t := Started(from, count)];
    forall a, b | a in calls' && b in calls' && a != b ensures Apart(calls'[a], calls'[b]) {
      if a != t && b != t { assert Apart(calls[a], calls[b]); }
    }
  }

  lemma SameBuffers(calls: map<nat, Call>, t: nat, next: Option<Call>, limit: nat)
    requires Disjoint(calls) && Bounded(calls, limit) && t in calls
    requires next.Some? ==> next.value.start == calls[t].start && next.value.upto == calls[t].upto
    requires next.Some? ==> calls[t].from <= next.value.from <= calls[t].upto
    ensures Disjoint(Put(calls, t, next)) && Bounded(Put(calls, t, next), limit)
  {
    var calls' := Put(calls, t, next);
    forall a, b | a in calls' && b in calls' && a != b ensures Apart(calls'[a], calls'[b]) {
      assert Apart(calls[a], calls[b]);
    }
  }

  lemma ResultOne(done: seq<Filled>, r: Filled, t: nat)
    ensures Given(done + [r], t) == Given(done, t) + if r.t == t then r.bytes else []
    ensures Sizes(done + [r], t) == Sizes(done, t) + if r.t == t then [|r.bytes|] else []
  {
    assert (done + [r])[..|done|] == done;
  }

  lemma AgreesEnter(got: map<nat, seq<byte>>, calls: map<nat, Call>, user: seq<byte>, made: seq<Request>,
                    done: seq<Filled>, t: nat, u: nat, from: nat, count: nat)
    requires Agrees(got, calls, user, made, done, t) && u !in calls && from + count <= |user|
    ensures Agrees(got, calls[u := Started(from, count)], user, made + [Request(u, from, count)], done, t)
  {
    hide Passed, Lengths, Given, Sizes;
    MadeOne(made, Request(u, from, count), t, user);
    NothingMore(Sizes(done, t));
    var calls' := calls[u := Started(from, count)];
    if u == t {
      assert Current(calls, t) == [] && Current(calls', t) == [if count < INT_LIMIT then count else 0];
      assert Part(calls, t, user) == [] && Part(calls', t, user) == [];
    } else {
      assert Current(calls', t) == Current(calls, t) && Part(calls', t, user) == Part(calls, t, user);
      NothingMore(Lengths(made, t));
    }
  }

  lemma AgreesEnd(got: map<nat, seq<byte>>, calls: map<nat, Call>, user: seq<byte>, made: seq<Request>,
                  done: seq<Filled>, t: nat, u: nat)
    requires Agrees(got, calls, user, made, done, t) && u in calls && Returns(calls[u])
    requires calls[u].start <= calls[u].upto <= |user|
    ensures Agrees(got, calls - {u}, user, made, done + [Filled(u, user[calls[u].start..calls[u].upto])], t)
  {
    hide Lengths, Given, Sizes;
    var bs := user[calls[u].start..calls[u].upto];
    ResultOne(done, Filled(u, bs), t);
    if u == t {
      assert Part(calls, t, user) == bs && Part(calls - {u}, t, user) == [];
      assert Current(calls, t) == [|bs|] && Current(calls - {u}, t) == [];
      NothingMore(Given(done, t) + bs);
      NothingMore(Sizes(done, t) + [|bs|]);
    } else {
      assert Part(calls - {u}, t, user) == Part(calls, t, user) && Current(calls - {u}, t) == Current(calls, t);
      NothingMore(Given(done, t));
      NothingMore(Sizes(done, t));
    }
  }

  lemma AgreesMoved(got: map<nat, seq<byte>>, calls: map<nat, Call>, user: seq<byte>, made: seq<Request>,
                    done: seq<Filled>, t: nat, u: nat, c: Call)
    requires Agrees(got, calls, user, made, done, t) && u in calls
    requires c.start == calls[u].start && c.upto == calls[u].upto && c.from == calls[u].from
    ensures Agrees(got, calls[u := c], user, made, done, t)
  {
  }

  lemma AgreesStored(got: map<nat, seq<byte>>, calls: map<nat, Call>, user: seq<byte>, made: seq<Request>,
                     done: seq<Filled>, t: nat, u: nat, c: Call, bs: seq<byte>, got': map<nat, seq<byte>>)
    requires Agrees(got, calls, user, made, done, t) && u in calls && Disjoint(calls) && Bounded(calls, |user|)
    requires c.start == calls[u].start && c.upto == calls[u].upto && c.from == calls[u].from + |bs| <= c.upto
    requires got' == got[u := Rec.Got(got, u) + bs]
    ensures Agrees(got', calls[u := c], Splice(user, calls[u].from, bs), made, done, t)
  {
    hide Lengths, Given, Sizes;
    var from, user', calls' := calls[u].from, Splice(user, calls[u].from, bs), calls[u := c];
    assert Current(calls', t) == Current(calls, t);
    if t == u {
      SpliceEnds(user, user', c.start, from, bs);
      assert Part(calls, t, user) == user[c.start..from] && Part(calls', t, user') == user'[c.start..c.from];
      Grows(Given(done, t), user[c.start..from], bs, user'[c.start..c.from]);
    } else if t in calls {
      assert Apart(calls[t], calls[u]);
      SpliceApart(user, user', calls[t].start, calls[t].from, from, bs);
      assert Part(calls', t, user') == Part(calls, t, user);
    }
  }

  lemma TallyEnter(w: System, u: nat, from: nat, count: nat, t: nat)
    requires Tally(w, t) && u !in w.calls && u !in w.p.ring.todo && from + count <= |w.user|
    ensures Tally(Entered(w, u, from, count), t)
  {
    hide R.Apply, Agrees;
    AgreesEnter(w.p.got, w.calls, w.user, w.made, w.done, t, u, from, count);
  }

  lemma TallyGo(w: System, u: nat, rd1: nat, rd2: nat, t: nat)
    requires Tally(w, t) && Buffers(w) && GoesOn(w, u)
    ensures Tally(WentOn(w, u, rd1, rd2), t)
  {
    hide Gone, Agrees, Disjoint, Bounded;
    var c := w.calls[u];
    GoGiven(w.p, u, c);
    if Returns(c) {
      AgreesEnd(w.p.got, w.calls, w.user, w.made, w.done, t, u);
    } else if c.at.Copying? {
      AgreesStored(w.p.got, w.calls, w.user, w.made, w.done, t, u, Moved(w.p, u, c, rd1, rd2).value, InHand(w.p, u),
                   Gone(w.p, u, c).got);
    } else {
      AgreesMoved(w.p.got, w.calls, w.user, w.made, w.done, t, u, Moved(w.p, u, c, rd1, rd2).value);
    }
  }

  lemma GoGiven(p: Rec.Rec, t: nat, c: Call)
    requires CanGo(p, t, c)
    ensures Gone(p, t, c).got == if c.at.Copying? then p.got[t := Rec.Got(p.got, t) + InHand(p, t)] else p.got
  {
    hide Turn, Landed, Queued, Rec.DoEnd;
    match c.at
    case AtTop => if c.from == c.upto { EndGiven(p, t); } else { QueueGiven(p, M.Apply(p.ring.mutex, M.Add(t))); }
    case Counted => QueueGiven(p, M.Apply(p.ring.mutex, M.Acquire(t)));
    case Blocked =>
    case InTurn => TurnGiven(p, t);
    case Copying(src, n) => LandGiven(p, t);
  }

  lemma EndGiven(p: Rec.Rec, t: nat)
    requires Rec.Enabled(p, Rec.End(t))
    ensures Rec.DoEnd(p, t).got == p.got
  {
  }

  lemma QueueGiven(p: Rec.Rec, m: M.Mutex)
    ensures Queued(p, m).got == p.got
  {
  }

  lemma TurnGiven(p: Rec.Rec, t: nat)
    requires CanTakeTurn(p, t)
    ensures Turn(p, t).got == p.got
  {
  }

  lemma LandGiven(p: Rec.Rec, t: nat)
    requires CanLand(p, t)
    ensures Landed(p, t).got == p.got[t := Rec.Got(p.got, t) + InHand(p, t)]
  {
  }

  lemma TallyStep(w: System, e: Event, sound: nat -> byte, rd1: nat, rd2: nat, t: nat)
    requires Tally(w, t) && Buffers(w)
    ensures Tally(After(w, e, sound, rd1, rd2), t)
  {
    hide WentOn, Entered, Buffers;
    match e
    case Enter(u, from, count) =>
      if u !in w.calls && u !in w.p.ring.todo && from + count <= |w.user| { TallyEnter(w, u, from, count, t); }
    case Go(u) => if GoesOn(w, u) { TallyGo(w, u, rd1, rd2, t); }
    case Hear => if Rec.CanCapture(w.p) { Rec.CaptureFrame(w.p, sound(|w.p.captured|)); }
    case Interrupt =>
  }

  lemma BuffersStep(w: System, e: Event, sound: nat -> byte, rd1: nat, rd2: nat)
    requires Buffers(w)
    ensures Buffers(After(w, e, sound, rd1, rd2))
  {
    match e
    case Enter(u, from, count) =>
      if u !in w.calls && u !in w.p.ring.todo && from + count <= |w.user| && Fits(w.calls, from, from + count) {
        MoreBuffers(w.calls, u, from, count, |w.user|);
      }
    case Go(u) => if GoesOn(w, u) { BuffersGo(w, u, rd1, rd2); }
    case Hear =>
    case Interrupt =>
  }

  lemma BuffersGo(w: System, u: nat, rd1: nat, rd2: nat)
    requires Buffers(w) && GoesOn(w, u)
    ensures Buffers(WentOn(w, u, rd1, rd2))
  {
    hide Gone, Disjoint, Put;
    SameBuffers(w.calls, u, Moved(w.p, u, w.calls[u], rd1, rd2), |w.user|);
  }

  lemma {:induction false} TallyAll(size: nat, user: seq<byte>, schedule: seq<Event>, sound: nat -> byte,
                                    rd1: nat, rd2: nat, t: nat)
    ensures var w := AfterAll(System(Rec.Init(size), map[], user, [], []), schedule, sound, rd1, rd2);
            Tally(w, t) && Buffers(w)
  {
    if schedule != [] {
      var init := schedule[..|schedule| - 1];
      TallyAll(size, user, init, sound, rd1, rd2, t);
      var w := AfterAll(System(Rec.Init(size), map[], user, [], []), init, sound, rd1, rd2);
      TallyStep(w, schedule[|schedule| - 1], sound, rd1, rd2, t);
      BuffersStep(w, schedule[|schedule| - 1], sound, rd1, rd2);
    }
  }

  // What the device and the calls in progress know of each other

  ghost predicate Matches(p: Rec.Rec, t: nat, c: Call, limit: nat, rd1: nat, rd2: nat) {
    && c.start <= c.from <= c.upto <= limit
    && t in p.ring.todo && p.ring.todo[t] == c.upto - c.from
    && InPlace(p.ring.mutex, p.ring.copying, t, c.at, rd1, rd2)
  }

  /** The calls in progress are those the system knows of. */
  ghost predicate All(p: Rec.Rec, calls: map<nat, Call>, limit: nat, rd1: nat, rd2: nat) {
    calls.Keys == p.ring.todo.Keys && forall t | t in calls :: Matches(p, t, calls[t], limit, rd1, rd2)
  }

  /** What is known besides of every state of the device while nobody has the lock. */
  lemma Known(size: nat, trace: seq<Rec.Step>, p: Rec.Rec)
    requires size > 0 && Exec(Rec.Next, Rec.Init(size), trace) == Some(p) && p.ring.lock.Free?
    ensures forall t: nat | t !in p.ring.todo :: M.Enabled(p.ring.mutex, M.Add(t)) && t !in p.ring.copying
    ensures forall t | t in p.ring.mutex.held :: t !in p.ring.mutex.added && t !in p.ring.mutex.queue
  {
    Rec.InitInv(size);
    Rec.InvRun(Rec.Init(size), trace);
    HeldOnly(p.ring.mutex);
  }

  /** What the next piece of a call finds. */
  ghost predicate Ready(p: Rec.Rec, t: nat, c: Call, rd1: nat, rd2: nat) {
    && CanGo(p, t, c) && c.from <= c.upto
    && (c.at.InTurn? ==> p.ring.todo[t] == c.upto - c.from)
    && (c.at.Copying? ==>
          c.at.dest == (if p.ring.copying[t].half.One? then rd1 else rd2) + p.ring.copying[t].off)
  }

  /** A call in progress can always go on. */
  lemma GoKnown(size: nat, trace: seq<Rec.Step>, p: Rec.Rec, t: nat, c: Call, limit: nat, rd1: nat, rd2: nat)
    requires size > 0 && Exec(Rec.Next, Rec.Init(size), trace) == Some(p) && p.ring.lock.Free?
    requires Matches(p, t, c, limit, rd1, rd2)
    ensures Ready(p, t, c, rd1, rd2)
  {
    D.Known(size, trace, p);
  }

  // What a piece leaves

  ghost predicate SameOthers(p: Rec.Rec, q: Rec.Rec, t: nat) {
    forall u | u != t && u in p.ring.todo :: u in q.ring.todo && q.ring.todo[u] == p.ring.todo[u]
  }

  ghost predicate Elsewhere(p: Rec.Rec, q: Rec.Rec, t: nat, rd1: nat, rd2: nat) {
    Unmoved(p.ring, q.ring, t, rd1, rd2) && SameOthers(p, q, t)
  }

  lemma GoOthers(p: Rec.Rec, t: nat, c: Call, rd1: nat, rd2: nat)
    requires CanGo(p, t, c) && t in p.ring.todo
    requires t in p.ring.mutex.held ==> t !in p.ring.mutex.added && t !in p.ring.mutex.queue
    ensures var q := Gone(p, t, c);
            && Elsewhere(p, q, t, rd1, rd2)
            && q.ring.todo.Keys == if Returns(c) then p.ring.todo.Keys - {t} else p.ring.todo.Keys
  {
    match c.at
    case AtTop => if c.from == c.upto { EndOthers(p, t, rd1, rd2); } else { AddOthers(p, t, rd1, rd2); }
    case Counted => TakeOthers(p, t, rd1, rd2);
    case Blocked =>
    case InTurn => TurnOthers(p, t, rd1, rd2);
    case Copying(src, n) => LandOthers(p, t, rd1, rd2);
  }

  lemma EndOthers(p: Rec.Rec, t: nat, rd1: nat, rd2: nat)
    requires Rec.Enabled(p, Rec.End(t))
    ensures var q := Rec.DoEnd(p, t); Elsewhere(p, q, t, rd1, rd2) && q.ring.todo.Keys == p.ring.todo.Keys - {t}
  {
  }

  lemma AddOthers(p: Rec.Rec, t: nat, rd1: nat, rd2: nat)
    requires CanQueue(p, t)
    ensures var q := Queued(p, M.Apply(p.ring.mutex, M.Add(t)));
            Elsewhere(p, q, t, rd1, rd2) && q.ring.todo == p.ring.todo
  {
  }

  lemma TakeOthers(p: Rec.Rec, t: nat, rd1: nat, rd2: nat)
    requires t in p.ring.mutex.added
    ensures var q := Queued(p, M.Apply(p.ring.mutex, M.Acquire(t)));
            Elsewhere(p, q, t, rd1, rd2) && q.ring.todo == p.ring.todo
  {
  }

  lemma TurnOthers(p: Rec.Rec, t: nat, rd1: nat, rd2: nat)
    requires CanTakeTurn(p, t) && t !in p.ring.mutex.added && t !in p.ring.mutex.queue
    ensures var q := Turn(p, t); Elsewhere(p, q, t, rd1, rd2) && q.ring.todo == p.ring.todo
  {
  }

  lemma LandOthers(p: Rec.Rec, t: nat, rd1: nat, rd2: nat)
    requires CanLand(p, t)
    ensures var q := Landed(p, t); Elsewhere(p, q, t, rd1, rd2) && q.ring.todo.Keys == p.ring.todo.Keys
  {
  }

  /** The thread itself is where the code says. */
  lemma GoMatches(p: Rec.Rec, t: nat, c: Call, limit: nat, rd1: nat, rd2: nat)
    requires CanGo(p, t, c) && Matches(p, t, c, limit, rd1, rd2) && !Returns(c)
    requires t in p.ring.mutex.held ==> t !in p.ring.mutex.added && t !in p.ring.mutex.queue
    ensures Matches(Gone(p, t, c), t, Moved(p, t, c, rd1, rd2).value, limit, rd1, rd2)
  {
    match c.at
    case AtTop =>
    case Counted =>
    case Blocked =>
    case InTurn => TurnMatches(p, t, c, limit, rd1, rd2);
    case Copying(src, n) => LandMatches(p, t, c, limit, rd1, rd2);
  }

  lemma TurnMatches(p: Rec.Rec, t: nat, c: Call, limit: nat, rd1: nat, rd2: nat)
    requires c.at.InTurn? && CanTakeTurn(p, t) && Matches(p, t, c, limit, rd1, rd2)
    requires t !in p.ring.mutex.added && t !in p.ring.mutex.queue
    ensures Matches(Turn(p, t), t, Moved(p, t, c, rd1, rd2).value, limit, rd1, rd2)
  {
  }

  lemma LandMatches(p: Rec.Rec, t: nat, c: Call, limit: nat, rd1: nat, rd2: nat)
    requires c.at.Copying? && CanGo(p, t, c) && Matches(p, t, c, limit, rd1, rd2)
    ensures Matches(Landed(p, t), t, Moved(p, t, c, rd1, rd2).value, limit, rd1, rd2)
  {
  }

  lemma GoLeaves(p: Rec.Rec, calls: map<nat, Call>, limit: nat, rd1: nat, rd2: nat, t: nat, c: Call,
                 q: Rec.Rec, next: Option<Call>)
    requires All(p, calls, limit, rd1, rd2) && t in calls && c == calls[t] && CanGo(p, t, c)
    requires t in p.ring.mutex.held ==> t !in p.ring.mutex.added && t !in p.ring.mutex.queue
    requires q == Gone(p, t, c) && next == Moved(p, t, c, rd1, rd2)
    ensures All(q, Put(calls, t, next), limit, rd1, rd2)
  {
    GoOthers(p, t, c, rd1, rd2);
    if !Returns(c) { GoMatches(p, t, c, limit, rd1, rd2); }
    OthersMatch(p, calls, limit, rd1, rd2, t, q, Put(calls, t, next));
  }

  lemma OthersMatch(p: Rec.Rec, calls: map<nat, Call>, limit: nat, rd1: nat, rd2: nat, t: nat, q: Rec.Rec,
                    calls': map<nat, Call>)
    requires All(p, calls, limit, rd1, rd2) && Unmoved(p.ring, q.ring, t, rd1, rd2) && SameOthers(p, q, t)
    requires calls'.Keys == q.ring.todo.Keys
    requires forall u | u in calls' && u != t :: u in calls && calls'[u] == calls[u]
    requires t in calls' ==> Matches(q, t, calls'[t], limit, rd1, rd2)
    ensures All(q, calls', limit, rd1, rd2)
  {
    forall u | u in calls' && u != t ensures Matches(q, u, calls'[u], limit, rd1, rd2) {
      assert Matches(p, u, calls[u], limit, rd1, rd2);
    }
  }

  lemma BeginLeaves(p: Rec.Rec, calls: map<nat, Call>, limit: nat, rd1: nat, rd2: nat, t: nat, from: nat, count: nat)
    requires All(p, calls, limit, rd1, rd2) && t !in calls && from + count <= limit
    requires M.Enabled(p.ring.mutex, M.Add(t)) && t !in p.ring.copying
    ensures All(Rec.DoBegin(p, t, count), calls[t := Started(from, count)], limit, rd1, rd2)
  {
    OthersMatch(p, calls, limit, rd1, rd2, t, Rec.DoBegin(p, t, count), calls[t := Started(from, count)]);
  }

  /** The interrupt leaves everybody in place, except that the first in the queue may have been woken. */
  lemma ServiceLeaves(p: Rec.Rec, calls: map<nat, Call>, limit: nat, rd1: nat, rd2: nat)
    requires All(p, calls, limit, rd1, rd2) && CanServe(p)
    ensures All(Served(p), calls, limit, rd1, rd2)
  {
    var q := Served(p);
    forall u | u in calls ensures Matches(q, u, calls[u], limit, rd1, rd2) {
      assert Matches(p, u, calls[u], limit, rd1, rd2);
      ServicePlace(p, u, calls[u].at, rd1, rd2);
    }
  }

  lemma ServicePlace(p: Rec.Rec, u: nat, at: Place, rd1: nat, rd2: nat)
    requires CanServe(p) && InPlace(p.ring.mutex, p.ring.copying, u, at, rd1, rd2)
    ensures var q := Served(p); InPlace(q.ring.mutex, q.ring.copying, u, at, rd1, rd2) && q.ring.todo == p.ring.todo
  {
  }

  lemma CaptureLeaves(p: Rec.Rec, calls: map<nat, Call>, limit: nat, rd1: nat, rd2: nat, b: byte)
    requires All(p, calls, limit, rd1, rd2) && Rec.CanCapture(p)
    ensures All(Rec.DoCapture(p, b), calls, limit, rd1, rd2)
  {
    Rec.CaptureFrame(p, b);
    var q := Rec.DoCapture(p, b);
    forall u | u in calls ensures Matches(q, u, calls[u], limit, rd1, rd2) {
      assert Matches(p, u, calls[u], limit, rd1, rd2);
    }
  }

  /** Of t's calls the buffers hold, one after the other, its part of the stream, as many bytes, and each of them
      right unless it is spoilt; and each call that has returned has returned as many bytes as it was asked for. */
  ghost predicate Delivered(w: System, t: nat) {
    && Rec.Right(Given(w.done, t) + Part(w.calls, t, w.user) + Rec.Coming(w.p.one, w.p.two, w.p.ring.copying, t),
                 Project(w.p.stream, t), t, w.p.spoilt)
    && Sizes(w.done, t) + Current(w.calls, t) == Lengths(w.made, t)
  }

  lemma SystemDelivers(size: nat, trace: seq<Rec.Step>, user: seq<byte>, w: System, schedule: seq<Event>,
                       sound: nat -> byte, rd1: nat, rd2: nat, t: nat)
    requires size > 0 && Exec(Rec.Next, Rec.Init(size), trace) == Some(w.p)
    requires w == AfterAll(System(Rec.Init(size), map[], user, [], []), schedule, sound, rd1, rd2)
    ensures Delivered(w, t)
  {
    TallyAll(size, user, schedule, sound, rd1, rd2, t);
    StreamOf(size, trace, w.p, t);
  }

  lemma StreamOf(size: nat, trace: seq<Rec.Step>, p: Rec.Rec, t: nat)
    requires size > 0 && Exec(Rec.Next, Rec.Init(size), trace) == Some(p)
    ensures Rec.Right(Rec.Got(p.got, t) + Rec.Coming(p.one, p.two, p.ring.copying, t), Project(p.stream, t), t,
                      p.spoilt)
  {
    Rec.RecordFidelity(size, trace, p);
  }

  // The code

  method Queues(device: D.Device, t: nat) returns (queued: bool)
    requires device.Valid()
    ensures queued == (t in device.model.ring.mutex.queue) == (t in device.mutex.blocked)
  {
    queued := t in device.mutex.blocked;
  }

  /** mutex_acquire, the semaphore. */
  method Take(device: D.Device, t: nat) returns (at: Place)
    requires device.Valid() && t in device.model.ring.mutex.added
    modifies device, device.mutex
    ensures device.Valid()
    ensures device.model == Queued(old(device.model), M.Apply(old(device.model).ring.mutex, M.Acquire(t)))
    ensures at == if old(device.model).ring.mutex.count > 0 then InTurn else Blocked
    ensures at == if old(device.mutex.sem) > 0 then InTurn else Blocked
  {
    var granted := device.TakeSem(t);
    at := if granted then InTurn else Blocked;
  }

  /** The turn under the spinlock, and what the thread remembers of it. */
  method Reserve(device: D.Device, t: nat, toRead: nat) returns (at: Place)
    requires device.Valid() && CanTakeTurn(device.model, t) && toRead == device.model.ring.todo[t]
    modifies device, device.mutex
    ensures device.Valid() && device.model == Turn(old(device.model), t)
    ensures at == Noted(old(device.model), t, device.rd1, device.rd2)
    ensures var space := device.rdSize - old(device.wasRead);
            at == Copying(old(device.rdCur) + old(device.wasRead), if space > toRead then toRead else space)
  {
    var src, n := device.TakeTurn(t, toRead);
    at := Copying(src, n);
  }

  /** The test at the top of the loop, and what comes of it. */
  method Test(device: D.Device, t: nat, c: Call) returns (next: Option<Call>)
    requires device.Valid() && c.at.AtTop? && CanGo(device.model, t, c)
    modifies device, device.mutex
    ensures device.Valid() && device.model == Gone(old(device.model), t, c)
    ensures next == if c.from == c.upto then None else Some(c.(at := Counted))
  {
    if c.from == c.upto {
      device.EndCall(t);
      next := None;
    } else {
      device.AddWaiter(t);
      next := Some(c.(at := Counted));
    }
  }

  /** The memcpy, and the pointer updates after it. */
  method Copy(device: D.Device, user: array<byte>, t: nat, c: Call) returns (c': Call)
    requires device.Valid() && user != device.area && c.at.Copying? && c.upto <= user.Length
    requires Ready(device.model, t, c, device.rd1, device.rd2)
    modifies device, user
    ensures device.Valid() && device.model == Landed(old(device.model), t)
    ensures user[..] == Splice(old(user[..]), c.from, InHand(old(device.model), t))
    ensures c' == c.(from := c.from + c.at.n, at := AtTop)
    ensures c.from + c.at.n <= user.Length && c.at.dest + c.at.n <= device.area.Length
    ensures user[..] == Splice(old(user[..]), c.from, device.area[c.at.dest..c.at.dest + c.at.n])
  {
    device.CopyBlock(t, user, c.from, c.at.dest, c.at.n);
    c' := c.(from := c.from + c.at.n, at := AtTop);
  }

  /** A thread runs the next piece of its call, with any number of other threads in theirs. */
  method Step(device: D.Device, user: array<byte>, t: nat, c: Call) returns (next: Option<Call>)
    requires device.Valid() && user != device.area && c.upto <= user.Length
    requires Ready(device.model, t, c, device.rd1, device.rd2)
    modifies device, device.mutex, user
    ensures device.Valid() && device.model == Gone(old(device.model), t, c)
    ensures next == Moved(old(device.model), t, c, device.rd1, device.rd2)
    ensures user[..] == Stored(old(device.model), t, c, old(user[..]))
    // from the top either out of the loop or to the mutex; there with a token on, and without one only once woken;
    // in its turn it takes what there is or what it needs, and after the copy it is at the top again
    ensures c.at.AtTop? ==> next == if c.from == c.upto then None else Some(c.(at := Counted))
    ensures c.at.Counted? ==> next == Some(c.(at := if old(device.mutex.sem) > 0 then InTurn else Blocked))
    ensures c.at.Blocked? ==> next == Some(if t in old(device.mutex.blocked) then c else c.(at := InTurn))
    ensures c.at.InTurn? ==>
              var space := device.rdSize - old(device.wasRead);
              next == Some(c.(at := Copying(old(device.rdCur) + old(device.wasRead),
                                            if space > c.upto - c.from then c.upto - c.from else space)))
    ensures c.at.Copying? ==>
              && next == Some(c.(from := c.from + c.at.n, at := AtTop))
              && c.from + c.at.n <= user.Length && c.at.dest + c.at.n <= device.area.Length
              && user[..] == Splice(old(user[..]), c.from, device.area[c.at.dest..c.at.dest + c.at.n])
    ensures !c.at.Copying? ==> user[..] == old(user[..])
  {
    hide D.Device.Valid, Turn, Landed, Queued, Noted, CanTakeTurn, CanLand;
    match c.at
    case AtTop =>
      next := Test(device, t, c);
    case Counted =>
      var at := Take(device, t);
      next := Some(c.(at := at));
    case Blocked =>
      var queued := Queues(device, t);
      next := Some(if queued then c else c.(at := InTurn));
    case InTurn =>
      var at := Reserve(device, t, c.upto - c.from);
      next := Some(c.(at := at));
    case Copying(src, n) =>
      var c' := Copy(device, user, t, c);
      next := Some(c');
  }

  ghost predicate Good(device: D.Device, user: array<byte>, calls: map<nat, Call>)
    reads device, device.mutex, device.area
  {
    device.Valid() && user != device.area && All(device.model, calls, user.Length, device.rd1, device.rd2)
  }

  /** A thread that is not in a call makes one, with a buffer that nobody else is using. */
  method Begin(device: D.Device, user: array<byte>, calls: map<nat, Call>, made: seq<Request>, ghost done: seq<Filled>,
               t: nat, from: nat, count: nat)
    returns (calls': map<nat, Call>, made': seq<Request>)
    requires Good(device, user, calls) && t !in calls && from + count <= user.Length
    modifies device
    ensures Good(device, user, calls') && t !in old(device.model).ring.todo
    ensures System(device.model, calls', user[..], made', done) ==
            Entered(System(old(device.model), calls, user[..], made, done), t, from, count)
  {
    Known(device.rdSize, device.trace, device.model);
    BeginLeaves(device.model, calls, user.Length, device.rd1, device.rd2, t, from, count);
    device.BeginCall(t, count);
    calls' := calls[t := Started(from, count)];
    made' := made + [Request(t, from, count)];
  }

  /** A thread that is in a call goes on. */
  method GoOn(device: D.Device, user: array<byte>, calls: map<nat, Call>, t: nat) returns (next: Option<Call>)
    requires Good(device, user, calls) && t in calls
    modifies device, device.mutex, user
    ensures calls[t].start <= calls[t].upto <= user.Length
    ensures CanGo(old(device.model), t, calls[t]) && device.model == Gone(old(device.model), t, calls[t])
    ensures next == Moved(old(device.model), t, calls[t], device.rd1, device.rd2)
    ensures user[..] == Stored(old(device.model), t, calls[t], old(user[..]))
    ensures Good(device, user, Put(calls, t, next))
  {
    hide D.Device.Valid, Gone, Moved, CanGo, All, Put, Stored;
    WillGo(device, user, calls, t);
    next := Step(device, user, t, calls[t]);
  }

  lemma WillGo(device: D.Device, user: array<byte>, calls: map<nat, Call>, t: nat)
    requires Good(device, user, calls) && t in calls
    ensures Ready(device.model, t, calls[t], device.rd1, device.rd2)
    ensures calls[t].start <= calls[t].upto <= user.Length
    ensures All(Gone(device.model, t, calls[t]),
                Put(calls, t, Moved(device.model, t, calls[t], device.rd1, device.rd2)), user.Length,
                device.rd1, device.rd2)
  {
    GoKnown(device.rdSize, device.trace, device.model, t, calls[t], user.Length, device.rd1, device.rd2);
    GoKept(device.rdSize, device.trace, device.model, calls, user.Length, device.rd1, device.rd2, t);
  }

  lemma GoKept(size: nat, trace: seq<Rec.Step>, p: Rec.Rec, calls: map<nat, Call>, limit: nat, rd1: nat, rd2: nat,
               t: nat)
    requires size > 0 && Exec(Rec.Next, Rec.Init(size), trace) == Some(p) && p.ring.lock.Free?
    requires All(p, calls, limit, rd1, rd2) && t in calls && CanGo(p, t, calls[t])
    ensures All(Gone(p, t, calls[t]), Put(calls, t, Moved(p, t, calls[t], rd1, rd2)), limit, rd1, rd2)
  {
    Known(size, trace, p);
    GoLeaves(p, calls, limit, rd1, rd2, t, calls[t], Gone(p, t, calls[t]), Moved(p, t, calls[t], rd1, rd2));
  }

  method Continue(device: D.Device, user: array<byte>, calls: map<nat, Call>, ghost made: seq<Request>,
                  done: seq<Filled>, t: nat)
    returns (calls': map<nat, Call>, done': seq<Filled>)
    requires Good(device, user, calls) && t in calls
    modifies device, device.mutex, user
    ensures Good(device, user, calls')
    ensures var w := System(old(device.model), calls, old(user[..]), made, done);
            && GoesOn(w, t)
            && System(device.model, calls', user[..], made, done') == WentOn(w, t, device.rd1, device.rd2)
  {
    hide Good, Gone, Moved, CanGo, Put;
    var c := calls[t];
    var next := GoOn(device, user, calls, t);
    calls' := Put(calls, t, next);
    done' := if Returns(c) then done + [Filled(t, user[c.start..c.upto])] else done;
  }

  /** The card stores a byte. */
  method StoreByte(device: D.Device, user: array<byte>, calls: map<nat, Call>, sound: nat -> byte)
    requires Good(device, user, calls)
    modifies device, device.area
    ensures Good(device, user, calls) && Rec.CanCapture(old(device.model)) && user[..] == old(user[..])
    ensures device.model == Rec.DoCapture(old(device.model), sound(|old(device.model).captured|))
  {
    D.Known(device.rdSize, device.trace, device.model);
    CaptureLeaves(device.model, calls, user.Length, device.rd1, device.rd2, sound(device.heard));
    device.Capture(sound);
  }

  /** The interrupt is served. */
  method Service(device: D.Device, user: array<byte>, calls: map<nat, Call>)
    requires Good(device, user, calls)
    modifies device, device.mutex
    ensures Good(device, user, calls) && CanServe(old(device.model)) && device.model == Served(old(device.model))
  {
    D.Known(device.rdSize, device.trace, device.model);
    ServiceLeaves(device.model, calls, user.Length, device.rd1, device.rd2);
    var _ := device.RecordHandler();
  }

  method Perform(device: D.Device, user: array<byte>, calls: map<nat, Call>, made: seq<Request>, done: seq<Filled>,
                 e: Event, sound: nat -> byte)
    returns (calls': map<nat, Call>, made': seq<Request>, done': seq<Filled>)
    requires Good(device, user, calls)
    modifies device, device.mutex, device.area, user
    ensures Good(device, user, calls')
    ensures System(device.model, calls', user[..], made', done') ==
            After(System(old(device.model), calls, old(user[..]), made, done), e, sound, device.rd1, device.rd2)
  {
    hide Good, GoesOn, Rec.DoCapture, Served, Entered, WentOn;
    calls', made', done' := calls, made, done;
    match e
    case Enter(t, from, count) =>
      if t !in calls && from + count <= user.Length && Fits(calls, from, from + count) {
        calls', made' := Begin(device, user, calls, made, done, t, from, count);
      }
    case Go(t) =>
      if t in calls {
        calls', done' := Continue(device, user, calls, made, done, t);
      }
    case Hear => StoreByte(device, user, calls, sound);
    case Interrupt => Service(device, user, calls);
  }

  /** Any number of threads, in any order, with the card and the handler in between: the device, user memory, the
      calls in progress, and those that have been made and have returned are what the pieces of the code say,
      one after the other; and of every thread the buffers hold its part of the stream. */
  method Run(device: D.Device, user: array<byte>, schedule: seq<Event>, sound: nat -> byte)
    returns (calls: map<nat, Call>, made: seq<Request>, done: seq<Filled>)
    requires device.Valid() && user != device.area && device.model == Rec.Init(device.rdSize)
    modifies device, device.mutex, device.area, user
    ensures Good(device, user, calls)
    ensures System(device.model, calls, user[..], made, done) ==
            AfterAll(System(Rec.Init(device.rdSize), map[], old(user[..]), [], []), schedule, sound,
                     device.rd1, device.rd2)
    ensures forall t: nat :: Delivered(System(device.model, calls, user[..], made, done), t)
  {
    ghost var before, start := user[..], System(device.model, map[], user[..], [], []);
    calls, made, done := map[], [], [];
    for i := 0 to |schedule|
      invariant Good(device, user, calls)
      invariant System(device.model, calls, user[..], made, done) ==
                AfterAll(start, schedule[..i], sound, device.rd1, device.rd2)
    {
      assert schedule[..i + 1][..i] == schedule[..i];
      calls, made, done := Perform(device, user, calls, made, done, schedule[i], sound);
    }
    assert schedule[..|schedule|] == schedule;
    forall t: nat ensures Delivered(System(device.model, calls, user[..], made, done), t) {
      SystemDelivers(device.rdSize, device.trace, before, System(device.model, calls, user[..], made, done), schedule,
                     sound, device.rd1, device.rd2, t);
    }
  }
}
