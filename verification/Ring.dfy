/**
 The client side and the interrupt side of one double-buffered ring, without the bytes.

 pcm_write and pcm_read are the same protocol over the same kind of ring: clients queue on a
 counting mutex, reserve a chunk of the back half under a spinlock, and copy it with the lock
 released; the interrupt handler, under the same spinlock, closes the back half, swaps the
 halves and releases the mutex.  Any number of clients; one atomic operation per step; nothing
 is assumed about timing.
 */
module Ring {
  import opened Runs
  import M = CountingMutex

  datatype Half = One | Two

  function Other(h: Half): Half { if h.One? then Two else One }

  /** A reserved piece of a half, as remembered in wr_dest or rd_src. */
  datatype Chunk = Chunk(tid: nat, half: Half, off: nat, len: nat)

  /** No byte is in flight to half h: every chunk reserved there has been copied, or is empty. */
  predicate NothingTo(copying: map<nat, Chunk>, h: Half) {
    forall t | t in copying && copying[t].half == h :: copying[t].len == 0
  }

  datatype ClientPhase =
    | Testing                          // has the spinlock
    | Releasing(n: nat)                // "must let next guy in"
    | Reserving(kept: bool, n: nat)    // block size decided; kept: the token was not released

  datatype HandlerPhase = Entered | Swapped | Releasing | Leaving(released: bool)

  /** The spinlock, and how far its holder has got. */
  datatype Lock = Free | Client(tid: nat, phase: ClientPhase) | Handler(at: HandlerPhase)

  datatype Ring = Ring(
    size: nat,                     // wr_size: bytes in one half
    mutex: M.Mutex,
    lock: Lock,
    cur: Half,                     // wr_cur: the back half
    used: nat,                     // was_written
    total: nat,                    // wr_total
    todo: map<nat, nat>,           // threads inside a call, and the bytes they still have to move
    copying: map<nat, Chunk>,      // chunks reserved and not yet copied
    // History
    chunks: seq<Chunk>,            // reserved since the last swap, in order
    closed: nat,                   // bytes reserved before the last swap
    services: nat,                 // interrupts that have swapped
    handlerReleases: nat,          // interrupts that have begun their release
    released: nat, kept: nat       // loop iterations of either kind
  )

  function Init(size: nat): Ring {
    Ring(size, M.FRESH, Free, Two, 0, 0, map[], map[], [], 0, 0, 0, 0, 0)
  }

  datatype Step =
    | Begin(t: nat, n: nat)            // a call for n bytes
    | Add(t: nat) | Acquire(t: nat)    // mutex_acquire
    | Enter(t: nat)                    // acquire_spinlock
    | Test(t: nat)                     // available_block > to_write ?
    | FinishRelease(t: nat)
    | Reserve(t: nat)                  // advance was_written, release_spinlock
    | Copy(t: nat)                     // the memcpy, and the pointer and count updates
    | End(t: nat)                      // the call returns
    | HEnter | HSwap | HStartRelease | HFinishRelease | HLeave

  predicate Enabled(r: Ring, s: Step) {
    match s
    case Begin(t, n) => t !in r.todo
    case Add(t) =>
      t in r.todo && r.todo[t] > 0 && t !in r.copying && M.Enabled(r.mutex, M.Add(t))
    case Acquire(t) => M.Enabled(r.mutex, M.Acquire(t))
    case Enter(t) => t in r.mutex.held && r.lock.Free?
    case Test(t) => r.lock == Client(t, Testing) && t in r.todo && r.used <= r.size
                    && M.Enabled(r.mutex, M.StartRelease)
    case FinishRelease(t) =>
      r.lock.Client? && r.lock.tid == t && r.lock.phase.Releasing? && M.Enabled(r.mutex, M.FinishRelease)
    case Reserve(t) =>
      r.lock.Client? && r.lock.tid == t && r.lock.phase.Reserving? && M.Enabled(r.mutex, M.Leave(t))
    case Copy(t) => t in r.copying && t in r.todo && r.copying[t].len <= r.todo[t]
    case End(t) => t in r.todo && r.todo[t] == 0 && t !in r.copying
    case HEnter => r.lock.Free?
    case HSwap => r.lock == Handler(Entered)
    case HStartRelease => r.lock == Handler(Swapped) && M.Enabled(r.mutex, M.StartRelease)
    case HFinishRelease => r.lock == Handler(HandlerPhase.Releasing) && M.Enabled(r.mutex, M.FinishRelease)
    case HLeave => r.lock.Handler? && r.lock.at.Leaving?
  }

  function Apply(r: Ring, s: Step): Ring
    requires Enabled(r, s)
  {
    match s
    case Begin(t, n) => r.(todo := r.todo[t := n])
    case Add(t) => r.(mutex := M.Apply(r.mutex, M.Add(t)))
    case Acquire(t) => r.(mutex := M.Apply(r.mutex, M.Acquire(t)))
    case Enter(t) => r.(lock := Client(t, Testing))
    case Test(t) =>
      var available := r.size - r.used;
      if available > r.todo[t]
      then r.(mutex := M.Apply(r.mutex, M.StartRelease), lock := Client(t, ClientPhase.Releasing(r.todo[t])))
      else r.(lock := Client(t, Reserving(true, available)))
    case FinishRelease(t) =>
      r.(mutex := M.Apply(r.mutex, M.FinishRelease), lock := Client(t, Reserving(false, r.lock.phase.n)))
    case Reserve(t) =>
      var c := Chunk(t, r.cur, r.used, r.lock.phase.n);
      r.(mutex := M.Apply(r.mutex, M.Leave(t)), lock := Free, used := r.used + c.len,
         copying := r.copying[t := c], chunks := r.chunks + [c],
         kept := r.kept + if r.lock.phase.kept then 1 else 0,
         released := r.released + if r.lock.phase.kept then 0 else 1)
    case Copy(t) =>
      r.(todo := r.todo[t := r.todo[t] - r.copying[t].len], copying := r.copying - {t})
    case End(t) => r.(todo := r.todo - {t})
    case HEnter => r.(lock := Handler(Entered))
    case HSwap =>
      r.(lock := Handler(Swapped), cur := Other(r.cur), used := 0, total := r.total + r.size,
         chunks := [], closed := r.closed + r.used, services := r.services + 1)
    case HStartRelease =>
      r.(lock := Handler(HandlerPhase.Releasing), mutex := M.Apply(r.mutex, M.StartRelease),
         handlerReleases := r.handlerReleases + 1)
    case HFinishRelease =>
      r.(lock := Handler(Leaving(r.mutex.release.Posting?)), mutex := M.Apply(r.mutex, M.FinishRelease))
    case HLeave => r.(lock := Free)
  }

  /** Steps that concern the mutex and the lock only. */
  predicate Quiet(s: Step) {
    s.Add? || s.Acquire? || s.Enter? || s.Test? || s.FinishRelease?
    || s.HEnter? || s.HStartRelease? || s.HFinishRelease?
  }

  lemma QuietFrame(r: Ring, s: Step)
    requires Enabled(r, s) && Quiet(s)
    ensures var q := Apply(r, s);
            q.size == r.size && q.cur == r.cur && q.used == r.used && q.todo == r.todo && q.copying == r.copying
            && q.services == r.services && q.closed == r.closed
  {
  }

  lemma SwapFrame(r: Ring)
    requires Enabled(r, HSwap)
    ensures Apply(r, HSwap).closed == r.closed + r.used && Apply(r, HSwap).used == 0
  {
  }

  /** Calls begin and end, and the interrupt ends, without bytes being reserved. */
  lemma CallFrame(r: Ring)
    ensures forall s: Step {:trigger Enabled(r, s)} | Enabled(r, s) && (s.Begin? || s.End? || s.HLeave?) ::
              Apply(r, s).closed == r.closed && Apply(r, s).used == r.used
  {
  }

  /** t is the only thread in a call, with n bytes to go. */
  ghost predicate OnlyCall(r: Ring, t: nat, n: nat) { r.todo.Keys == {t} && r.todo[t] == n }

  // What every run keeps

  /** The chunks, in order, fill [0, n) of half h without gap or overlap. */
  ghost predicate Tiles(chunks: seq<Chunk>, h: Half, n: nat) {
    if chunks == [] then n == 0 else
    var last := chunks[|chunks| - 1];
    last.half == h && last.off + last.len == n && Tiles(chunks[..|chunks| - 1], h, last.off)
  }

  /** A thread on its way through the mutex is in a call, has bytes to move and moves none yet. */
  ghost predicate Travelling(r: Ring, t: nat) {
    t in r.todo && r.todo[t] > 0 && t !in r.copying
  }

  ghost predicate MutexThreads(r: Ring) {
    && (forall t | t in r.mutex.added :: Travelling(r, t))
    && (forall t | t in r.mutex.queue :: Travelling(r, t))
    && (forall t | t in r.mutex.held :: Travelling(r, t))
  }

  ghost predicate CopyThreads(copying: map<nat, Chunk>, todo: map<nat, nat>, size: nat) {
    forall t | t in copying :: t in todo && copying[t].tid == t
      && copying[t].len <= todo[t] && copying[t].off + copying[t].len <= size
  }

  ghost predicate ThreadInv(r: Ring) { MutexThreads(r) && CopyThreads(r.copying, r.todo, r.size) }

  ghost predicate LockInv(r: Ring) {
    && (r.lock.Client? ==>
          var t := r.lock.tid;
          && t in r.mutex.held && t in r.todo
          && match r.lock.phase
             case Testing => true
             case Releasing(n) => n == r.todo[t] < r.size - r.used
             case Reserving(kept, n) =>
               if kept then n == r.size - r.used <= r.todo[t] else n == r.todo[t] < r.size - r.used)
    // nobody reserves between the swap and the end of the interrupt
    && (r.lock.Handler? && !r.lock.at.Entered? ==> r.used == 0)
    // under the spinlock at most one release is in flight, and it is the lock holder's
    && (r.mutex.release.Idle? <==>
          !(r.lock.Client? && r.lock.phase.Releasing?) && r.lock != Handler(HandlerPhase.Releasing))
  }

  /** 1 while a client has decided to release but has not yet reserved. */
  function MidRelease(r: Ring): nat {
    if r.lock.Client? && (r.lock.phase.Releasing? || (r.lock.phase.Reserving? && !r.lock.phase.kept))
    then 1 else 0
  }

  ghost predicate CountInv(r: Ring) {
    && r.mutex.posts <= r.released + MidRelease(r) + r.handlerReleases
    && r.mutex.leaves == r.released + r.kept
    && r.services == r.handlerReleases + (if r.lock == Handler(Swapped) then 1 else 0)
    && r.closed <= r.total
  }

  ghost predicate Inv(r: Ring) {
    && M.Inv(r.mutex)
    && r.used <= r.size
    && Tiles(r.chunks, r.cur, r.used)
    && ThreadInv(r)
    && LockInv(r)
    && CountInv(r)
  }

  lemma MutexStep(r: Ring, s: Step)
    requires Inv(r) && Enabled(r, s)
    ensures M.Inv(Apply(r, s).mutex)
  {
    match s
    case Add(t) => M.InvStep(r.mutex, M.Add(t));
    case Acquire(t) => M.InvStep(r.mutex, M.Acquire(t));
    case Test(t) => M.InvStep(r.mutex, M.StartRelease);
    case FinishRelease(t) => M.InvStep(r.mutex, M.FinishRelease);
    case Reserve(t) => M.InvStep(r.mutex, M.Leave(t));
    case HStartRelease => M.InvStep(r.mutex, M.StartRelease);
    case HFinishRelease => M.InvStep(r.mutex, M.FinishRelease);
    case _ =>
  }

  lemma ThreadStep(r: Ring, s: Step)
    requires Inv(r) && Enabled(r, s)
    ensures ThreadInv(Apply(r, s))
  {
    CopyThreadStep(r, s);
    match s
    case FinishRelease(t) => WakeThread(r, s);
    case HFinishRelease => WakeThread(r, s);
    case _ => MutexThreadStep(r, s);
  }

  lemma CopyThreadStep(r: Ring, s: Step)
    requires CopyThreads(r.copying, r.todo, r.size) && Enabled(r, s)
    requires LockInv(r) && r.used <= r.size
    ensures var q := Apply(r, s); CopyThreads(q.copying, q.todo, q.size)
  {
    if s.Reserve? {
      assert r.lock.tid in r.todo;
    }
  }

  lemma MutexThreadStep(r: Ring, s: Step)
    requires MutexThreads(r) && M.Separate(r.mutex) && Enabled(r, s) && !s.FinishRelease? && !s.HFinishRelease?
    ensures MutexThreads(Apply(r, s))
  {
    if s.Reserve? {
      assert s.t !in r.mutex.added && s.t !in r.mutex.queue;
    }
  }

  lemma WakeThread(r: Ring, s: Step)
    requires MutexThreads(r) && Enabled(r, s) && (s.FinishRelease? || s.HFinishRelease?)
    ensures MutexThreads(Apply(r, s))
  {
    var q := M.Apply(r.mutex, M.FinishRelease);
    assert forall u | u in q.queue :: u in r.mutex.queue;
    assert forall u | u in q.held :: u in r.mutex.held || u in r.mutex.queue;
  }

  predicate HandlerStep(s: Step) { s.HEnter? || s.HSwap? || s.HStartRelease? || s.HFinishRelease? || s.HLeave? }

  lemma LockStep(r: Ring, s: Step)
    requires Inv(r) && Enabled(r, s)
    ensures LockInv(Apply(r, s))
  {
    if HandlerStep(s) { HandlerLockStep(r, s); }
  }

  lemma HandlerLockStep(r: Ring, s: Step)
    requires LockInv(r) && Enabled(r, s) && HandlerStep(s)
    ensures LockInv(Apply(r, s))
  {
  }

  lemma CountStep(r: Ring, s: Step)
    requires LockInv(r) && CountInv(r) && r.used <= r.size && Enabled(r, s)
    ensures CountInv(Apply(r, s))
  {
    if HandlerStep(s) { HandlerCountStep(r, s); }
  }

  lemma HandlerCountStep(r: Ring, s: Step)
    requires LockInv(r) && CountInv(r) && r.used <= r.size && Enabled(r, s) && HandlerStep(s)
    ensures CountInv(Apply(r, s))
  {
  }

  lemma TileStep(r: Ring, s: Step)
    requires LockInv(r) && Tiles(r.chunks, r.cur, r.used) && r.used <= r.size && Enabled(r, s)
    ensures var q := Apply(r, s); q.used <= q.size && Tiles(q.chunks, q.cur, q.used)
  {
    var q := Apply(r, s);
    if s.Reserve? {
      assert q.chunks[..|r.chunks|] == r.chunks;
    }
  }

  lemma InvStep(r: Ring, s: Step)
    requires Inv(r) && Enabled(r, s)
    ensures Inv(Apply(r, s))
  {
    MutexStep(r, s);
    ThreadStep(r, s);
    LockStep(r, s);
    CountStep(r, s);
    TileStep(r, s);
  }

  /** The spinlock makes the guards that protect the mutex steps redundant: a client that has
      the lock can always go on. */
  lemma LockHolderCanMove(r: Ring)
    requires Inv(r)
    ensures r.lock.Client? ==>
              var t := r.lock.tid;
              Enabled(r, Test(t)) || Enabled(r, FinishRelease(t)) || Enabled(r, Reserve(t))
    ensures r.lock.Handler? ==>
              Enabled(r, HSwap) || Enabled(r, HStartRelease) || Enabled(r, HFinishRelease) || Enabled(r, HLeave)
  {
  }

  // Runs

  function Next(r: Ring, s: Step): Option<Ring> {
    if Enabled(r, s) then Some(Apply(r, s)) else None
  }

  lemma {:induction false} InvRun(r: Ring, steps: seq<Step>)
    requires Inv(r) && Exec(Next, r, steps).Some?
    ensures Inv(Exec(Next, r, steps).value)
  {
    if steps != [] {
      InvRun(r, steps[..|steps| - 1]);
      InvStep(Exec(Next, r, steps[..|steps| - 1]).value, steps[|steps| - 1]);
    }
  }

  predicate Within(c: Chunk, p: nat) { c.off <= p < c.off + c.len }

  ghost predicate Covered(chunks: seq<Chunk>, p: nat) {
    exists i :: 0 <= i < |chunks| && Within(chunks[i], p)
  }

  /** What Tiles means: chunks follow each other, so they are pairwise disjoint, and together
      they cover exactly the bytes below n. */
  lemma {:induction false} TilesExactly(chunks: seq<Chunk>, h: Half, n: nat)
    requires Tiles(chunks, h, n)
    ensures forall i, j | 0 <= i < j < |chunks| :: chunks[i].off + chunks[i].len <= chunks[j].off
    ensures forall p: nat :: Covered(chunks, p) <==> p < n
    ensures forall i | 0 <= i < |chunks| :: chunks[i].half == h
  {
    if chunks != [] {
      var k := |chunks| - 1;
      var init, last := chunks[..k], chunks[k];
      TilesExactly(init, h, last.off);
      forall i | 0 <= i < k ensures chunks[i].off + chunks[i].len <= last.off {
        assert init[i] == chunks[i];
        if chunks[i].len > 0 {
          assert Within(init[i], chunks[i].off + chunks[i].len - 1);
        } else {
          TilesBound(init, h, last.off, i);
        }
      }
      forall p: nat ensures Covered(chunks, p) <==> p < n {
        if p < last.off {
          assert Covered(init, p);
          var i :| 0 <= i < |init| && Within(init[i], p);
          assert Within(chunks[i], p);
        } else if p < n {
          assert Within(chunks[k], p);
        }
      }
    }
  }

  lemma {:induction false} TilesBound(chunks: seq<Chunk>, h: Half, n: nat, i: nat)
    requires Tiles(chunks, h, n) && i < |chunks|
    ensures chunks[i].off + chunks[i].len <= n
  {
    if i < |chunks| - 1 {
      TilesBound(chunks[..|chunks| - 1], h, chunks[|chunks| - 1].off, i);
    }
  }

  // What has happened, counted from the steps

  function Turns(steps: seq<Step>): nat {
    if steps == [] then 0 else Turns(steps[..|steps| - 1]) + if steps[|steps| - 1].Reserve? then 1 else 0
  }

  function Swaps(steps: seq<Step>): nat {
    if steps == [] then 0 else Swaps(steps[..|steps| - 1]) + if steps[|steps| - 1].HSwap? then 1 else 0
  }

  /** Releases by clients: "must let next guy in". */
  function ClientReleases(steps: seq<Step>): nat {
    if steps == [] then 0 else
    ClientReleases(steps[..|steps| - 1]) + if steps[|steps| - 1].FinishRelease? then 1 else 0
  }

  /** The bytes that the turns have reserved. */
  function Volume(r: Ring, steps: seq<Step>): int
    requires Exec(Next, r, steps).Some?
  {
    if steps == [] then 0 else
    var init := steps[..|steps| - 1];
    Volume(r, init)
    + if steps[|steps| - 1].Reserve? then Exec(Next, r, steps).value.used - Exec(Next, r, init).value.used else 0
  }

  /** A client that has released and not reserved yet. */
  function Decided(l: Lock): nat { if l.Client? && l.phase.Reserving? && !l.phase.kept then 1 else 0 }

  lemma {:induction false} Counted(size: nat, steps: seq<Step>)
    requires Exec(Next, Init(size), steps).Some?
    ensures var r := Exec(Next, Init(size), steps).value;
            && r.services == Swaps(steps) && r.kept + r.released == Turns(steps)
            && r.released + Decided(r.lock) == ClientReleases(steps)
            && r.closed + r.used == Volume(Init(size), steps)
  {
    if steps != [] {
      Counted(size, steps[..|steps| - 1]);
      CountedStep(Exec(Next, Init(size), steps[..|steps| - 1]).value, steps[|steps| - 1]);
    }
  }

  lemma CountedStep(r: Ring, s: Step)
    requires Enabled(r, s)
    ensures var q := Apply(r, s);
            && q.services == r.services + (if s.HSwap? then 1 else 0)
            && q.kept + q.released == r.kept + r.released + (if s.Reserve? then 1 else 0)
            && q.released + Decided(q.lock) == r.released + Decided(r.lock) + (if s.FinishRelease? then 1 else 0)
            && q.closed + q.used == r.closed + r.used + (if s.Reserve? then q.used - r.used else 0)
  {
  }

  /** In every run, of any number of clients and however the interrupt falls between them: the
      chunks reserved since the last swap tile exactly [0, used) of the back half; there is at most
      one more turn than interrupts that have swapped and releases by clients; and the bytes that
      the turns have reserved are at most one half ahead of what the interrupts have accounted for. */
  lemma {:induction false} RingSafety(size: nat, steps: seq<Step>)
    requires Exec(Next, Init(size), steps).Some?
    ensures var r := Exec(Next, Init(size), steps).value;
            && Inv(r)
            && 0 <= r.used <= r.size == size
            && Tiles(r.chunks, r.cur, r.used)
            && Turns(steps) <= 1 + Swaps(steps) + ClientReleases(steps)
            && Volume(Init(size), steps) <= r.total + size
            && r.total == Swaps(steps) * size
  {
    InvRun(Init(size), steps);
    TotalRun(size, steps);
    Counted(size, steps);
  }

  lemma {:induction false} TotalRun(size: nat, steps: seq<Step>)
    requires Exec(Next, Init(size), steps).Some?
    ensures var r := Exec(Next, Init(size), steps).value; r.size == size && r.total == r.services * size
  {
    if steps != [] {
      var init := steps[..|steps| - 1];
      TotalRun(size, init);
      TotalStep(Exec(Next, Init(size), init).value, steps[|steps| - 1]);
    }
  }

  lemma TotalStep(r: Ring, s: Step)
    requires Enabled(r, s) && r.total == r.services * r.size
    ensures var q := Apply(r, s); q.size == r.size && q.total == q.services * q.size
  {
    if s.HSwap? {
      assert (r.services + 1) * r.size == r.services * r.size + r.size;
    }
  }

  // No lost wake-up

  /** Since r, either everybody queued in r has been woken, or every interrupt has woken one. */
  ghost predicate Served(r: Ring, q: Ring) {
    && r.mutex.joined <= q.mutex.joined
    && |r.mutex.woken| <= |q.mutex.woken|
    && (|q.mutex.woken| - |r.mutex.woken| >= |r.mutex.queue|
        || |q.mutex.woken| - |r.mutex.woken|
           + (if q.lock == Handler(HandlerPhase.Releasing) && q.mutex.release.Posting? then 1 else 0)
           >= q.handlerReleases - r.handlerReleases)
  }

  lemma ServedStep(r: Ring, q: Ring, s: Step)
    requires Inv(r) && Inv(q) && Served(r, q) && Enabled(q, s)
    ensures Served(r, Apply(q, s))
  {
    var m, n := r.mutex, q.mutex;
    Lengths(m.joined, m.woken, m.queue);
    Lengths(n.joined, n.woken, n.queue);
    if s.HStartRelease? {
      if n.queue != [] { M.BlockedIsSeen(n); }
      ServedStart(r, q);
    } else {
      ServedOther(r, q, s);
    }
  }

  lemma Lengths(joined: seq<nat>, woken: seq<nat>, queue: seq<nat>)
    requires joined == woken + queue
    ensures |joined| == |woken| + |queue|
  {
  }

  lemma ServedStart(r: Ring, q: Ring)
    requires Served(r, q) && Enabled(q, HStartRelease) && (q.mutex.queue != [] ==> q.mutex.waiting > 0)
    requires |r.mutex.joined| == |r.mutex.woken| + |r.mutex.queue|
             && |q.mutex.joined| == |q.mutex.woken| + |q.mutex.queue|
    ensures Served(r, Apply(q, HStartRelease))
  {
  }

  lemma ServedOther(r: Ring, q: Ring, s: Step)
    requires Served(r, q) && LockInv(q) && Enabled(q, s) && !s.HStartRelease?
    requires |r.mutex.joined| == |r.mutex.woken| + |r.mutex.queue|
             && |q.mutex.joined| == |q.mutex.woken| + |q.mutex.queue|
    ensures Served(r, Apply(q, s))
  {
  }

  lemma {:induction false} ServedRun(r: Ring, steps: seq<Step>)
    requires Inv(r) && Exec(Next, r, steps).Some?
    ensures Served(r, Exec(Next, r, steps).value)
  {
    if steps != [] {
      var init := steps[..|steps| - 1];
      ServedRun(r, init);
      InvRun(r, init);
      ServedStep(r, Exec(Next, r, init).value, steps[|steps| - 1]);
    }
  }

  /** First come, first served, within as many interrupts as there are threads in front: once
      k+1 interrupts have begun and finished their release, the thread that had k threads ahead
      of it in the queue has been woken, in its turn. */
  lemma ServedInTurn(r: Ring, steps: seq<Step>, k: nat)
    requires Inv(r) && Exec(Next, r, steps).Some? && k < |r.mutex.queue|
    requires var q := Exec(Next, r, steps).value;
             q.handlerReleases - r.handlerReleases >= k + 1 && q.lock != Handler(HandlerPhase.Releasing)
    ensures InTurn(r.mutex, Exec(Next, r, steps).value.mutex, k)
  {
    ServedRun(r, steps);
    InvRun(r, steps);
    WokenInTurn(r, Exec(Next, r, steps).value, k);
  }

  /** From m to n, the thread with k threads ahead of it in the queue has been woken, and as many before it. */
  ghost predicate InTurn(m: M.Mutex, n: M.Mutex, k: nat)
    requires k < |m.queue|
  {
    |n.woken| > |m.woken| + k && n.woken[|m.woken| + k] == m.queue[k]
  }

  lemma WokenInTurn(r: Ring, q: Ring, k: nat)
    requires r.mutex.joined == r.mutex.woken + r.mutex.queue && q.mutex.joined == q.mutex.woken + q.mutex.queue
    requires Served(r, q) && k < |r.mutex.queue|
    requires q.handlerReleases - r.handlerReleases >= k + 1 && q.lock != Handler(HandlerPhase.Releasing)
    ensures InTurn(r.mutex, q.mutex, k)
  {
    InOrder(r.mutex.joined, r.mutex.woken, r.mutex.queue, q.mutex.joined, q.mutex.woken, q.mutex.queue, k);
  }

  lemma InOrder(joined: seq<nat>, woken: seq<nat>, queue: seq<nat>, joined': seq<nat>, woken': seq<nat>,
                queue': seq<nat>, k: nat)
    requires joined == woken + queue && joined' == woken' + queue' && joined <= joined'
    requires k < |queue| && |woken'| > |woken| + k
    ensures woken'[|woken| + k] == queue[k]
  {
    var i := |woken| + k;
    assert woken'[i] == joined'[i] == joined[i] == queue[k];
  }
}
