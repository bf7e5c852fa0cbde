/**
 The playback half of the PCM device as the driver has it: offsets into one low-memory area, a
 few counters, and a mutex that the interrupt handler releases.

 Each method is a piece of code that runs without interference (the spinlock is held, or only
 the calling thread's data is touched).  A ghost copy of the transition system of module Playback
 goes along with every piece, so that whatever order the pieces are called in is a run of that
 system, and its theorems hold of the arrays.
 */
module PcmPlayback {
  import opened Runs
  import opened Bytes
  import M = CountingMutex
  import R = Ring
  import P = Playback
  import opened PlaybackRuns
  import opened Halves

  class Device {
    const area: array<byte>        // low_mem
    const wrSize: nat
    const wr1: nat                 // wr_1 and wr_2, as offsets into the area
    const wr2: nat
    var wrCur: nat
    var wrSilence: nat
    var wrTotal: nat
    var wasWritten: nat
    const mutex: M.DriverMutex     // wr_mutex
    // The card: what it plays next, and its interrupt line
    var dma: nat
    var pending: bool

    ghost var model: P.Play
    ghost var trace: seq<P.Step>   // the run that has led to the model's state

    ghost function Offset(h: R.Half): nat reads this { if h.One? then wr1 else wr2 }

    ghost predicate Layout() reads this {
      wrSize > 0 && wr2 == wr1 + wrSize && wr2 + wrSize <= area.Length
    }

    ghost function Cells(): Parts
      requires Layout()
      reads this, area
    {
      Cut(area[..], wr1, wr2, wr2 + wrSize)
    }

    /** The half that begins at an offset. */
    ghost function HalfAt(at: nat): seq<byte>
      requires Layout()
      reads this, area
    {
      if at == wr1 then Cells().one else Cells().two
    }

    /** The arrays and counters are as in state p of the system. */
    ghost predicate Shows(p: P.Play) reads this, mutex, area {
      Layout() && Holds(p) && Counts(p)
    }

    ghost predicate Holds(p: P.Play)
      requires Layout()
      reads this, area
    {
      p.one == Cells().one && p.two == Cells().two
    }

    ghost predicate Counts(p: P.Play) reads this, mutex {
      && p.ring.size == wrSize
      && wrCur == Offset(p.ring.cur)
      && wasWritten == p.ring.used
      && wrTotal == p.ring.total
      && wrSilence == p.silence
      && mutex.Shows(p.ring.mutex)
      && dma == Offset(p.dmaHalf) + p.dmaPos
      && pending == p.unserved
    }

    ghost predicate Valid() reads this, mutex, area {
      Shows(model) && model.ring.lock.Free? && Exec(P.Next, P.Init(wrSize), trace) == Some(model)
    }

    /** Everything outside the playback ring. */
    ghost function Outside(): (seq<byte>, seq<byte>)
      requires Layout()
      reads this, area
    {
      (Cells().before, Cells().after)
    }

    /** The model goes along with what has been done to the arrays and counters. */
    ghost method Advance(steps: seq<P.Step>, q: P.Play)
      requires Exec(P.Next, P.Init(wrSize), trace) == Some(model)
      requires Exec(P.Next, model, steps) == Some(q) && q.ring.lock.Free? && Shows(q)
      modifies this`model, this`trace
      ensures Valid() && model == q && trace == old(trace) + steps && Outside() == old(Outside())
    {
      ExecAppend(P.Next, P.Init(wrSize), trace, model, steps);
      model, trace := q, trace + steps;
    }

    /** pcm_open, the playback part of the first client's setup. */
    constructor Open(area: array<byte>, at: nat, size: nat)
      requires size > 0 && at + 2 * size <= area.Length
      modifies area
      ensures Valid() && this.area == area && wr1 == at && wrSize == size
      ensures model == P.Init(size) && trace == []
      ensures wrCur == wr2 == at + size && wasWritten == 0 && wrTotal == 0 && wrSilence == 2 * size
      ensures fresh(mutex) && mutex.sem == 1 && mutex.blocked == [] && mutex.waitingCount == 0
      ensures dma == wr1 && !pending
      ensures area[..] == Splice(old(area[..]), at, Zeros(2 * size))
    {
      this.area := area;
      wrSize, wr1, wr2 := size, at, at + size;
      wrCur, wrSilence, wasWritten, wrTotal := at + size, size * 2, 0, 0;
      dma, pending := at, false;
      mutex := new M.DriverMutex.Create();
      model, trace := P.Init(size), [];
      new;
      Clear(area, wr1, wrSize * 2, Zeros(2 * size));
      assert Cells().one == Zeros(size);
      assert Cells().two == Zeros(size);
    }

    // The card

    /** The DMA plays one byte, whatever writers and handler are doing: the ring's bytes one after the other, from
        its start on, around and around. */
    method Fetch() returns (b: byte)
      requires Valid()
      modifies this`dma, this`pending, this`model, this`trace
      ensures Valid() && P.CanFetch(old(model)) && model == P.DoFetch(old(model))
      ensures model.output == old(model).output + [b]
      ensures wr1 <= old(dma) < wr1 + 2 * wrSize <= area.Length && b == area[old(dma)]
      ensures dma == if old(dma) + 1 == wr1 + 2 * wrSize then wr1 else old(dma) + 1
      ensures pending == (old(pending) || dma == wr1 || dma == wr2)
    {
      Known(wrSize, trace, model);
      b := PlayByte();
      PlaybackRuns.FetchStep(model);
      Advance([P.Fetch], P.DoFetch(model));
    }

    method PlayByte() returns (b: byte)
      requires Shows(model) && P.CanFetch(model) && P.Sizes(model)
      modifies this`dma, this`pending
      ensures Shows(P.DoFetch(model)) && b == P.Buffer(model, model.dmaHalf)[model.dmaPos]
      ensures wr1 <= old(dma) < wr1 + 2 * wrSize <= area.Length && b == area[old(dma)]
      ensures dma == if old(dma) + 1 == wr1 + 2 * wrSize then wr1 else old(dma) + 1
      ensures pending == (old(pending) || dma == wr1 || dma == wr2)
    {
      FetchedByte(model, area[..], wr1, wr2, wr2 + wrSize, dma);
      b := area[dma];
      dma := dma + 1;
      if dma == wr2 || dma == wr2 + wrSize {
        pending := true;
        if dma != wr2 { dma := wr1; }
      }
    }

    /** It goes on to the end of its half, where it interrupts. */
    method PlayHalf()
      requires Valid()
      modifies this`dma, this`pending, this`model, this`trace
      ensures Valid() && pending && SameControl(old(model), model)
    {
      while !pending
        invariant Valid() && SameControl(old(model), model)
        decreases !pending, wrSize - model.dmaPos
      {
        Known(wrSize, trace, model);
        P.FetchFrame(model);
        var _ := Fetch();
      }
    }

    // mutex_acquire

    method AddWaiter(t: nat)
      requires Valid() && M.Enabled(model.ring.mutex, M.Add(t))
      requires t in model.ring.todo && model.ring.todo[t] > 0 && t !in model.ring.copying
      modifies this`model, this`trace, mutex
      ensures Valid() && model == Queued(old(model), M.Apply(old(model).ring.mutex, M.Add(t)))
    {
      mutex.AddWaiter(model.ring.mutex, t);
      AddStep(model, t);
      Advance([P.Quiet(R.Add(t))], Queued(model, M.Apply(model.ring.mutex, M.Add(t))));
    }

    method TakeSem(t: nat) returns (granted: bool)
      requires Valid() && t in model.ring.mutex.added
      modifies this`model, this`trace, mutex
      ensures Valid() && model == Queued(old(model), M.Apply(old(model).ring.mutex, M.Acquire(t)))
      ensures granted == (old(mutex.sem) > 0)
      ensures mutex.sem == old(mutex.sem) - (if granted then 1 else 0)
    {
      granted := mutex.Take(model.ring.mutex, t);
      AcquireStep(model, t);
      Advance([P.Quiet(R.Acquire(t))], Queued(model, M.Apply(model.ring.mutex, M.Acquire(t))));
    }

    // The interrupt

    /** The area is what it was with bs written into one half. */
    lemma Overwrites(a: seq<byte>, cells: Parts, half: R.Half, off: nat, i: nat, bs: seq<byte>)
      requires Layout() && |a| == area.Length && cells == Cut(a, wr1, wr2, wr2 + wrSize)
      requires off + |bs| <= wrSize && i == Offset(half) + off && area[..] == Splice(a, i, bs)
      ensures Cells() == Overwritten(cells, half, off, bs)
    {
      WrittenIntoHalf(a, area[..], wr1, wr2, wr2 + wrSize, half, off, i, bs);
    }

    /** Silence in one half, from an offset on. */
    method SilenceRest(ghost half: R.Half, at: nat, from: nat, ghost zeros: seq<byte>)
      requires Layout() && at == Offset(half) && from + |zeros| == wrSize && AllZero(zeros)
      modifies area
      ensures Cells() == Overwritten(old(Cells()), half, from, zeros)
    {
      ghost var a, cells := area[..], Cells();
      Clear(area, at + from, wrSize - from, zeros);
      Overwrites(a, cells, half, from, at + from, zeros);
    }

    /** The first half of iw_playback_handler: pad the back half, swap, account. */
    method PadAndSwap()
      requires Shows(model) && CanServe(model)
      modifies this`wrCur, this`wasWritten, this`wrTotal, area
      ensures Layout()
      ensures wrCur == Offset(R.Other(model.ring.cur)) && wasWritten == 0 && wrTotal == old(wrTotal) + wrSize
      ensures Cells() == if model.ring.cur.One? then old(Cells()).(one := Padded(model))
                         else old(Cells()).(two := Padded(model))
    {
      if wasWritten > 0 && wasWritten < wrSize {
        SilenceRest(model.ring.cur, wrCur, wasWritten, Zeros(wrSize - wasWritten));
      }
      wrCur := if wrCur == wr1 then wr2 else wr1;
      wasWritten := 0;
      wrTotal := wrTotal + wrSize;
    }

    /** The second half: release the mutex, and clear the new back half if nobody is there. */
    method ReleaseOrFill(ghost m: M.Mutex) returns (unblocked: bool)
      requires Layout() && (wrCur == wr1 || wrCur == wr2) && mutex.Shows(m) && m.release.Idle?
      modifies this`wrSilence, mutex, area
      ensures Layout()
      ensures mutex.Shows(M.Released(m)) && unblocked == (m.waiting > 0)
      ensures var fills := !unblocked && old(wrSilence) < 2 * wrSize;
              && wrSilence == old(wrSilence) + (if fills then wrSize else 0)
              && Cells() == (if !fills then old(Cells())
                             else if wrCur == wr1 then old(Cells()).(one := Zeros(wrSize))
                             else old(Cells()).(two := Zeros(wrSize)))
    {
      unblocked := mutex.Release(m);
      if !unblocked && wrSilence < wrSize * 2 {
        SilenceRest(if wrCur == wr1 then R.One else R.Two, wrCur, 0, Zeros(wrSize));
        wrSilence := wrSilence + wrSize;
      }
    }

    method HandlerBody(ghost q: P.Play) returns (schedule: bool)
      requires Shows(model) && CanServe(model) && q == Served(model)
      modifies this`wrCur, this`wasWritten, this`wrTotal, this`wrSilence, this`pending, mutex, area
      ensures Shows(q) && Outside() == old(Outside())
      ensures schedule == (old(mutex.waitingCount) > 0)
      ensures wrCur == (if old(wrCur) == wr1 then wr2 else wr1) && wasWritten == 0 && !pending
      ensures wrTotal == old(wrTotal) + wrSize
      // the half that is handed over is filled up, unless nothing was written into it
      ensures old(wasWritten) <= wrSize && Layout() && (old(wrCur) == wr1 || old(wrCur) == wr2)
      ensures HalfAt(old(wrCur)) == if old(wasWritten) == 0 then old(HalfAt(wrCur))
                                    else old(HalfAt(wrCur))[..old(wasWritten)] + Zeros(wrSize - old(wasWritten))
      // the other is cleared if nobody waits, unless it has been already
      ensures var fills := old(mutex.waitingCount) <= 0 && old(wrSilence) < 2 * wrSize;
              && HalfAt(wrCur) == (if fills then Zeros(wrSize)
                                   else old(HalfAt(if wrCur == wr1 then wr2 else wr1)))
              && wrSilence == old(wrSilence) + if fills then wrSize else 0
    {
      PadAndSwap();
      pending := false;
      schedule := ReleaseOrFill(model.ring.mutex);
    }

    /** iw_playback_handler, called for whatever reason: returns whether to invoke the scheduler. */
    method PlaybackHandler() returns (schedule: bool)
      requires Valid()
      modifies this, mutex, area
      ensures Valid() && CanServe(old(model)) && model == Served(old(model)) && Outside() == old(Outside())
      ensures schedule == (old(mutex.waitingCount) > 0)
      ensures wrCur == (if old(wrCur) == wr1 then wr2 else wr1) && wasWritten == 0 && !pending
      ensures wrTotal == old(wrTotal) + wrSize
      // the half that is handed over is filled up, unless nothing was written into it
      ensures old(wasWritten) <= wrSize && Layout() && (old(wrCur) == wr1 || old(wrCur) == wr2)
      ensures HalfAt(old(wrCur)) == if old(wasWritten) == 0 then old(HalfAt(wrCur))
                                    else old(HalfAt(wrCur))[..old(wasWritten)] + Zeros(wrSize - old(wasWritten))
      // the other is cleared if nobody waits, unless it has been already
      ensures var fills := old(mutex.waitingCount) <= 0 && old(wrSilence) < 2 * wrSize;
              && HalfAt(wrCur) == (if fills then Zeros(wrSize)
                                   else old(HalfAt(if wrCur == wr1 then wr2 else wr1)))
              && wrSilence == old(wrSilence) + if fills then wrSize else 0
    {
      hide Served, CanServe;
      Known(wrSize, trace, model);
      ghost var steps, q := ServeTo(model);
      schedule := HandlerBody(q);
      Advance(steps, q);
    }

    // pcm_write

    /** Decide how much to take, and let the next writer in if that does not fill the half. */
    method TakeBlock(ghost m: M.Mutex, toWrite: nat) returns (dest: nat, n: nat)
      requires wasWritten <= wrSize && mutex.Shows(m) && m.release.Idle?
      modifies this`wasWritten, this`wrSilence, mutex
      ensures dest == old(wrCur) + old(wasWritten) && wrSilence == 0 && wasWritten == old(wasWritten) + n
      ensures var available := wrSize - old(wasWritten);
              && n == (if available > toWrite then toWrite else available)
              && mutex.Shows(if available > toWrite then M.Released(m) else m)
    {
      n := wrSize - wasWritten;
      if n > toWrite {
        var _ := mutex.Release(m);
        n := toWrite;
      }
      dest := wrCur + wasWritten;
      wasWritten := wasWritten + n;
      wrSilence := 0;
    }

    /** One turn of a writer under the spinlock. */
    method TakeTurn(t: nat, toWrite: nat) returns (dest: nat, n: nat)
      requires Valid() && t in model.ring.mutex.held && t in model.ring.todo && toWrite == model.ring.todo[t]
      modifies this`wasWritten, this`wrSilence, this`model, this`trace, mutex
      ensures Valid() && CanTakeTurn(old(model), t) && model == Turn(old(model), t)
      ensures dest == old(wrCur) + old(wasWritten) && n == BlockSize(old(model), t)
      ensures n == if wrSize - old(wasWritten) > toWrite then toWrite else wrSize - old(wasWritten)
      ensures wasWritten == old(wasWritten) + n && model.stream == old(model).stream + Tag(t, old(model).data[t][..n])
    {
      Known(wrSize, trace, model);
      dest, n := TakeBlock(model.ring.mutex, toWrite);
      ghost var steps := TurnSteps(model, t);
      Advance(steps, Turn(model, t));
    }

    /** The memcpy of one block, with the lock released. */
    method CopyBlock(t: nat, data: array<byte>, from: nat, dest: nat, n: nat)
      requires Valid() && data != area && t in model.ring.copying && t in model.data && from + n <= data.Length
      requires var c := model.ring.copying[t];
               && n == c.len <= |model.data[t]| && dest == Offset(c.half) + c.off
               && data[from..from + n] == model.data[t][..n]
      modifies this`model, this`trace, area
      ensures Valid() && CanLand(old(model), t) && model == Landed(old(model), t) && Outside() == old(Outside())
      ensures dest + n <= area.Length && area[..] == Splice(old(area[..]), dest, data[from..from + n])
    {
      hide Splice;
      Known(wrSize, trace, model);
      CopyHalf(data, from, dest, n, model.ring.copying[t]);
      LandStep(model, t);
      Advance([P.Copy(t)], Landed(model, t));
    }

    /** The memcpy seen from the two halves: one is written into, nothing else changes. */
    method CopyHalf(data: array<byte>, from: nat, dest: nat, n: nat, ghost c: R.Chunk)
      requires Layout() && data != area && from + n <= data.Length
      requires c.off + n <= wrSize && dest == Offset(c.half) + c.off
      modifies area
      ensures Layout() && Cells() == Overwritten(old(Cells()), c.half, c.off, data[from..from + n])
      ensures dest + n <= area.Length && area[..] == Splice(old(area[..]), dest, data[from..from + n])
    {
      ghost var a, cells := area[..], Cells();
      Memcpy(area, dest, data, from, n);
      Overwrites(a, cells, c.half, c.off, dest, data[from..from + n]);
    }

    // The beginning and the end of a call, of any thread

    ghost method BeginCall(t: nat, d: seq<byte>)
      requires Valid() && t !in model.ring.todo
      modifies this`model, this`trace
      ensures Valid() && P.Enabled(old(model), P.Begin(t, d)) && model == P.DoBegin(old(model), t, d)
    {
      PlaybackRuns.BeginStep(model, t, d);
      Advance([P.Begin(t, d)], P.DoBegin(model, t, d));
    }

    ghost method EndCall(t: nat)
      requires Valid() && t in model.ring.todo && model.ring.todo[t] == 0 && t !in model.ring.copying
      modifies this`model, this`trace
      ensures Valid() && R.Enabled(old(model).ring, R.End(t)) && model == P.DoEnd(old(model), t)
    {
      PlaybackRuns.EndStep(model, t);
      Advance([P.End(t)], P.DoEnd(model, t));
    }

    // pcm_write as a whole, for one writer and any number of interrupts

    /** The card plays out its half and interrupts. */
    method Interrupt()
      requires Valid()
      modifies this, mutex, area
      ensures Valid() && Outside() == old(Outside()) && Interrupted(old(model), model)
      ensures old(model).ring.copying == map[] ==> Prompt(old(model), model)
    {
      PlayHalf();
      Known(wrSize, trace, model);
      if old(model).ring.copying == map[] { ServedPromptly(old(model), model); }
      var _ := PlaybackHandler();
    }

    method Interrupts(k: nat, ghost added: set<nat>)
      requires Valid() && M.Waits(model.ring.mutex, added, [], {})
      modifies this, mutex, area
      ensures Valid() && M.Waits(model.ring.mutex, added, [], {}) && Outside() == old(Outside())
      ensures SameCalls(old(model), model)
      ensures old(model).ring.copying == map[] ==> Prompt(old(model), model)
      ensures k == 0 ==> model == old(model) && mutex.sem == old(mutex.sem)
    {
      for i := 0 to k
        invariant Valid() && M.Waits(model.ring.mutex, added, [], {}) && Outside() == old(Outside())
        invariant SameCalls(old(model), model)
        invariant old(model).ring.copying == map[] ==> Prompt(old(model), model)
        invariant i == 0 ==> model == old(model)
      {
        ghost var before := model;
        Interrupt();
        M.ReleaseNobody(before.ring.mutex, added, {});
        PromptToo(old(model), before, model);
      }
    }

    /** The semaphore: if there is no token, one interrupt more to be woken by. */
    method GetToken(t: nat)
      requires Valid() && M.Waits(model.ring.mutex, {t}, [], {})
      modifies this, mutex, area
      ensures Valid() && M.Waits(model.ring.mutex, {}, [], {t}) && Outside() == old(Outside())
      ensures SameCalls(old(model), model)
      ensures old(model).ring.copying == map[] ==> Prompt(old(model), model)
      ensures model.ring.used == 0 || (mutex.sem < old(mutex.sem) && model.ring.used == old(model).ring.used)
    {
      var granted := TakeSem(t);
      if !granted {
        ghost var before := model;
        Known(wrSize, trace, model);
        Interrupt();
        M.WakeFirst(before.ring.mutex, t);
      }
    }

    /** mutex_acquire as a whole: wait for a turn, with some interrupts before the semaphore is
        reached. */
    method WaitForTurn(t: nat, ticks: nat)
      requires Valid() && M.Waits(model.ring.mutex, {}, [], {})
      requires t in model.ring.todo && model.ring.todo[t] > 0 && t !in model.ring.copying
      modifies this, mutex, area
      ensures Valid() && M.Waits(model.ring.mutex, {}, [], {t}) && Outside() == old(Outside())
      ensures SameCalls(old(model), model)
      ensures old(model).ring.copying == map[] ==> Prompt(old(model), model)
      ensures model.ring.used == 0 || ticks > 0
              || (mutex.sem < old(mutex.sem) && model.ring.used == old(model).ring.used)
    {
      AddWaiter(t);
      Interrupts(ticks, {t});
      ghost var before := model;
      GetToken(t);
      PromptToo(old(model), before, model);
    }

    /** The reservation, and some interrupts after it. */
    method ReserveBlock(t: nat, toWrite: nat, ticks: nat, ghost rest: seq<byte>) returns (dest: nat, n: nat)
      requires Valid() && M.Waits(model.ring.mutex, {}, [], {t}) && InCall(model, t, rest) && toWrite == |rest|
      modifies this, mutex, area
      ensures Valid() && M.Waits(model.ring.mutex, {}, [], {}) && Outside() == old(Outside())
      ensures InHand(model, t, rest, n) && model.stream == old(model).stream + Tag(t, rest[..n])
      ensures dest == Offset(model.ring.copying[t].half) + model.ring.copying[t].off
      ensures old(model).handed <= model.handed && (ticks == 0 ==> Prompt(old(model), model))
      ensures n == 0 ==> rest == [] || ticks > 0 || (mutex.sem == old(mutex.sem) && old(wasWritten) == wrSize)
    {
      dest, n := TakeTurn(t, toWrite);
      TurnLeaves(old(model), t, rest);
      Interrupts(ticks, {});
    }

    /** One iteration of pcm_write's loop, after the wait, with some interrupts between reservation
        and copy; the call writes up to offset upto. */
    method WriteBlock(t: nat, data: array<byte>, from: nat, upto: nat, ticks: nat) returns (n: nat)
      requires Valid() && M.Waits(model.ring.mutex, {}, [], {t})
      requires data != area && from <= upto <= data.Length && InCall(model, t, data[from..upto])
      modifies this, mutex, area
      ensures Valid() && M.Waits(model.ring.mutex, {}, [], {}) && Outside() == old(Outside())
      ensures n <= upto - from && InCall(model, t, data[from + n..upto])
      ensures model.stream == old(model).stream + Tag(t, data[from..from + n])
      ensures old(model).handed <= model.handed && (ticks == 0 ==> Prompt(old(model), model))
      ensures n == 0 ==> from == upto || ticks > 0 || (mutex.sem == old(mutex.sem) && old(wasWritten) == wrSize)
    {
      ghost var rest := data[from..upto];
      var dest;
      dest, n := ReserveBlock(t, upto - from, ticks, rest);
      SliceParts(data[..], from, upto, n);
      ghost var mid := model;
      CopyBlock(t, data, from, dest, n);
      LandingLeaves(mid, t, rest, n);
    }

    /** t is in the middle of a call, alone, that began in a given past: what it still has to write, the stream
        so far, and that nothing has been late, if the call is to be prompt. */
    ghost predicate Writing(t: nat, rest: seq<byte>, stream: seq<(nat, byte)>, past: Past)
      reads this, mutex, area
    {
      && Valid() && M.Waits(model.ring.mutex, {}, [], {})
      && InCall(model, t, rest) && model.stream == stream && Outside() == past.outside
      && (past.prompt ==> Prompt(past.model, model))
    }

    /** One iteration of pcm_write's loop.  If it moves nothing, a token is gone. */
    method Iterate(t: nat, data: array<byte>, from: nat, upto: nat, ticks: (nat, nat),
                   ghost stream: seq<(nat, byte)>, ghost past: Past) returns (n: nat)
      requires data != area && from < upto <= data.Length && Writing(t, data[from..upto], stream, past)
      requires past.prompt ==> ticks.1 == 0
      modifies this, mutex, area
      ensures n <= upto - from
      ensures Writing(t, data[from + n..upto], stream + Tag(t, data[from..from + n]), past)
      ensures n == 0 ==> ticks != (0, 0) || mutex.sem < old(mutex.sem)
    {
      WaitForTurn(t, ticks.0);
      PromptToo(past.model, old(model), model);
      ghost var before := model;
      n := WriteBlock(t, data, from, upto, ticks.1);
      PromptToo(past.model, before, model);
    }

    /** The state of a call that has written the first n of count bytes. */
    ghost predicate Written(t: nat, data: array<byte>, n: nat, count: nat, past: Past)
      requires n <= count <= data.Length
      reads this, mutex, area, data
    {
      Writing(t, data[n..count], past.model.stream + Tag(t, data[..n]), past)
    }

    method Continue(t: nat, data: array<byte>, written: nat, count: nat, ticks: (nat, nat), ghost past: Past)
      returns (n: nat)
      requires data != area && written < count <= data.Length && Written(t, data, written, count, past)
      requires past.prompt ==> ticks.1 == 0
      modifies this, mutex, area
      ensures n <= count - written && Written(t, data, written + n, count, past)
      ensures n == 0 ==> ticks != (0, 0) || mutex.sem < old(mutex.sem)
    {
      hide Writing;
      n := Iterate(t, data, written, count, ticks, past.model.stream + Tag(t, data[..written]), past);
      TagGrows(past.model.stream, t, data[..written], data[written..written + n], data[..written + n]);
    }

    /** pcm_write's loop. */
    method WriteLoop(t: nat, data: array<byte>, count: nat, ticks: seq<(nat, nat)>, ghost past: Past)
      returns (written: nat)
      requires data != area && count <= data.Length && Written(t, data, 0, count, past)
      requires past.prompt ==> NoneLate(ticks)
      modifies this, mutex, area
      ensures written == count && Written(t, data, count, count, past)
    {
      hide Written;
      written := 0;
      var toWrite, i := count, 0;
      while toWrite > 0
        invariant written + toWrite == count && Written(t, data, written, count, past)
        decreases toWrite, if i < |ticks| then |ticks| - i else 0, mutex.sem
      {
        var n := Continue(t, data, written, count, if i < |ticks| then ticks[i] else (0, 0), past);
        written := written + n;
        toWrite := toWrite - n;
        i := i + 1;
      }
    }

    /** pcm_write for a thread that is alone with the interrupts.  ticks says how many interrupts
        arrive in each iteration before the writer reaches the semaphore, and how many between its
        reservation and its memcpy; when it has to block, one more arrives.  The bytes the loop moves
        are appended to the stream, all of them and in order; as many as were asked for, unless that
        number is negative as an int.  And if no interrupt comes between a reservation and its memcpy,
        the stream is in memory: the halves handed over meanwhile are right, and the array has the rest. */
    method Write(t: nat, data: array<byte>, count: nat, ticks: seq<(nat, nat)>) returns (written: nat)
      requires Valid() && M.Waits(model.ring.mutex, {}, [], {}) && model.ring.todo == map[]
      requires data != area && count <= data.Length
      modifies this, mutex, area
      ensures Valid() && M.Waits(model.ring.mutex, {}, [], {}) && model.ring.todo == map[]
      ensures Outside() == old(Outside())
      ensures written == if count < 0x8000_0000 then count else 0
      ensures model.stream == old(model).stream + Tag(t, data[..written])
      ensures NoneLate(ticks) && old(model).clean ==> model.clean && Placed(|old(model).handed|)
    {
      var toWrite: nat := if count < INT_LIMIT then count else 0;
      ghost var past := Past(model, Outside(), NoneLate(ticks));
      BeginAlone(t, data[..count], past);
      assert data[0..toWrite] == P.ToWrite(data[..count]);
      assert past.model.stream == past.model.stream + Tag(t, data[..0]);
      written := WriteLoop(t, data, toWrite, ticks, past);
      EndAlone(t, past.model.stream + Tag(t, data[..toWrite]), past);
    }

    /** The stream is in memory: what the halves handed over were filled with, of which those from the k-th on
        were right, and then the filled part of the half that wr_cur points to. */
    ghost predicate Placed(k: nat) reads this, mutex, area {
      && Layout() && wasWritten <= |HalfAt(wrCur)|
      && Untag(model.stream) == P.Accepted(model.handed) + HalfAt(wrCur)[..wasWritten]
      && forall i | k <= i < |model.handed| :: P.WellPadded(model.handed[i], wrSize)
    }

    ghost method BeginAlone(t: nat, d: seq<byte>, past: Past)
      requires Valid() && M.Waits(model.ring.mutex, {}, [], {}) && model.ring.todo == map[]
      requires past.model == model && past.outside == Outside()
      modifies this`model, this`trace
      ensures Writing(t, P.ToWrite(d), past.model.stream, past)
    {
      Known(wrSize, trace, model);
      BeginCall(t, d);
    }

    ghost method EndAlone(t: nat, stream: seq<(nat, byte)>, past: Past)
      requires Writing(t, [], stream, past)
      modifies this`model, this`trace
      ensures Valid() && M.Waits(model.ring.mutex, {}, [], {}) && model.ring.todo == map[] && model.stream == stream
      ensures Outside() == past.outside
      ensures past.prompt && past.model.clean ==> model.clean && Placed(|past.model.handed|)
    {
      EndCall(t);
      if past.prompt && past.model.clean {
        BackHalfEndsTheStream();
        HalvesRight(wrSize, trace, model, |past.model.handed|);
      }
    }

    /** The arrays are in a state that a run of the transition system has reached, so what every run
        keeps is true of them.  If nothing was in flight to the back half when it was opened and nothing is
        now, its filled part, in the array, is the end of the stream, after all the bytes in the halves handed
        over. */
    lemma BackHalfEndsTheStream()
      requires Valid() && model.clean && R.NothingTo(model.ring.copying, model.ring.cur)
      ensures wasWritten <= |HalfAt(wrCur)| == wrSize
      ensures Untag(model.stream) == P.Accepted(model.handed) + HalfAt(wrCur)[..wasWritten]
    {
      BackIsEpoch(wrSize, trace, model);
    }

    /** And if nothing was in flight to the half that is not being filled when it was closed, it is, in the
        array, what was handed over last. */
    lemma FrontHalfAsHandedOver()
      requires Valid()
      ensures model.handed != []
      ensures var last := model.handed[|model.handed| - 1];
              && P.RightInTime(last, wrSize)
              && (last.landed ==> HalfAt(Offset(R.Other(model.ring.cur))) == last.contents)
    {
      FrontIsLast(wrSize, trace, model);
    }
  }

  /** What a call remembers of the moment when it began; and whether it is to be prompt. */
  datatype Past = Past(model: P.Play, outside: (seq<byte>, seq<byte>), prompt: bool)

  /** No interrupt comes between a reservation and its memcpy. */
  predicate NoneLate(ticks: seq<(nat, nat)>) { forall i | 0 <= i < |ticks| :: ticks[i].1 == 0 }

  /** From p on to q, nothing was in flight to any half that was opened or closed. */
  ghost predicate Prompt(p: P.Play, q: P.Play) {
    p.clean ==>
      && q.clean && |p.handed| <= |q.handed|
      && forall i | |p.handed| <= i < |q.handed| :: q.handed[i].clean && q.handed[i].landed
  }

  lemma PromptToo(p: P.Play, q: P.Play, r: P.Play)
    requires q.handed <= r.handed
    ensures Prompt(p, q) && Prompt(q, r) ==> Prompt(p, r)
  {
  }

  /** Halves to which nothing was in flight were handed over right. */
  lemma HalvesRight(size: nat, trace: seq<P.Step>, p: P.Play, k: nat)
    requires size > 0 && Exec(P.Next, P.Init(size), trace) == Some(p)
    requires forall i | k <= i < |p.handed| :: p.handed[i].clean && p.handed[i].landed
    ensures forall i | k <= i < |p.handed| :: P.WellPadded(p.handed[i], size)
  {
    P.StreamFidelity(size, trace, p);
  }

  lemma BackIsEpoch(size: nat, trace: seq<P.Step>, p: P.Play)
    requires size > 0 && Exec(P.Next, P.Init(size), trace) == Some(p) && p.clean
             && R.NothingTo(p.ring.copying, p.ring.cur)
    ensures p.ring.used <= p.ring.size == |P.Back(p)|
    ensures Untag(p.stream) == P.Accepted(p.handed) + P.Back(p)[..p.ring.used]
  {
    P.InitInv(size);
    P.InvRun(P.Init(size), trace);
    Settled(P.Back(p), p.ring.cur, p.epoch, p.ring.copying, p.data, p.padded);
  }

  lemma Settled(back: seq<byte>, cur: R.Half, epoch: seq<byte>, copying: map<nat, R.Chunk>, data: map<nat, seq<byte>>,
                padded: bool)
    requires P.BackInv(back, cur, epoch, copying, data, padded) && R.NothingTo(copying, cur)
    ensures back[..|epoch|] == epoch
  {
    forall i: nat | i < |epoch| ensures back[i] == epoch[i] {
      assert !P.Awaited(copying, cur, i);
    }
  }

  lemma FrontIsLast(size: nat, trace: seq<P.Step>, p: P.Play)
    requires size > 0 && Exec(P.Next, P.Init(size), trace) == Some(p)
    ensures p.handed != []
    ensures var last := p.handed[|p.handed| - 1];
            P.RightInTime(last, size) && (last.landed ==> P.Front(p) == last.contents)
  {
    P.InitInv(size);
    P.InvRun(P.Init(size), trace);
    P.SizeRun(P.Init(size), trace);
    assert P.RightInTime(p.handed[|p.handed| - 1], size);
  }

  lemma ServeTo(p: P.Play) returns (steps: seq<P.Step>, q: P.Play)
    requires CanServe(p)
    ensures q == Served(p) && Exec(P.Next, p, steps) == Some(q) && q.ring.lock.Free?
  {
    steps := Serve(p);
    q := Served(p);
  }

  lemma ServedPromptly(p: P.Play, q: P.Play)
    requires SameControl(p, q) && CanServe(q) && p.ring.copying == map[]
    ensures Prompt(p, Served(q))
  {
  }

  /** The byte at the DMA's place in the area is the byte at its place in its half. */
  lemma FetchedByte(p: P.Play, a: seq<byte>, at: nat, mid: nat, end: nat, dma: nat)
    requires at <= mid <= end <= |a| && p.one == Cut(a, at, mid, end).one && p.two == Cut(a, at, mid, end).two
    requires P.CanFetch(p) && dma == (if p.dmaHalf.One? then at else mid) + p.dmaPos
    ensures dma < |a| && a[dma] == P.Buffer(p, p.dmaHalf)[p.dmaPos]
  {
  }

  /** Steps of the card only. */
  ghost predicate SameControl(p: P.Play, q: P.Play) {
    && q.ring == p.ring && q.data == p.data && q.stream == p.stream && q.supplied == p.supplied
    && q.handed == p.handed && q.clean == p.clean
  }

  // One writer at a time

  ghost predicate SameCalls(p: P.Play, q: P.Play) {
    && q.ring.size == p.ring.size && q.ring.todo == p.ring.todo && q.ring.copying == p.ring.copying
    && q.data == p.data && q.stream == p.stream && q.supplied == p.supplied && p.handed <= q.handed
  }

  /** What one interrupt does as far as a writer can tell. */
  ghost predicate Interrupted(p: P.Play, q: P.Play) {
    && SameCalls(p, q)
    && q.ring.used == 0
    && p.ring.mutex.release.Idle? && q.ring.mutex == M.Released(p.ring.mutex)
  }

  /** t is the only thread in a call, not copying, with these bytes still to write. */
  ghost predicate InCall(p: P.Play, t: nat, rest: seq<byte>) {
    R.OnlyCall(p.ring, t, |rest|) && p.data.Keys == {t} && p.data[t] == rest && p.ring.copying == map[]
  }

  /** Of these bytes t has reserved the first n and not copied them yet. */
  ghost predicate InHand(p: P.Play, t: nat, rest: seq<byte>, n: nat) {
    && R.OnlyCall(p.ring, t, |rest|) && p.data.Keys == {t} && p.data[t] == rest
    && p.ring.copying.Keys == {t} && p.ring.copying[t].len == n <= |rest|
  }

  lemma TurnLeaves(p: P.Play, t: nat, rest: seq<byte>)
    requires CanTakeTurn(p, t) && M.Waits(p.ring.mutex, {}, [], {t}) && InCall(p, t, rest)
    ensures var q, n := Turn(p, t), BlockSize(p, t);
            && InHand(q, t, rest, n) && q.ring.copying[t] == R.Chunk(t, p.ring.cur, p.ring.used, n)
            && M.Waits(q.ring.mutex, {}, [], {}) && q.ring.lock.Free?
            && q.stream == p.stream + Tag(t, rest[..n]) && q.handed == p.handed && q.clean == p.clean
            && (n == 0 && rest != [] ==> q.ring.mutex.count == p.ring.mutex.count && p.ring.used == p.ring.size)
  {
    M.ReleaseNobody(p.ring.mutex, {}, {t});
  }

  lemma LandingLeaves(p: P.Play, t: nat, rest: seq<byte>, n: nat)
    requires CanLand(p, t) && InHand(p, t, rest, n)
    ensures var q := Landed(p, t);
            && InCall(q, t, rest[n..])
            && q.ring.mutex == p.ring.mutex && q.ring.lock == p.ring.lock && q.ring.size == p.ring.size
            && q.stream == p.stream && q.supplied == p.supplied && q.handed == p.handed && q.clean == p.clean
  {
  }

  /** What is known of every state the device can be in while nobody has the lock. */
  lemma Known(size: nat, trace: seq<P.Step>, p: P.Play)
    requires size > 0 && Exec(P.Next, P.Init(size), trace) == Some(p) && p.ring.lock.Free?
    ensures P.Sizes(p) && !p.padded && !p.filled && p.ring.mutex.release.Idle?
    ensures P.CanFetch(p) && CanServe(p)
    ensures p.ring.mutex.count + p.ring.mutex.waiting == 1 + |p.ring.mutex.added| + |p.ring.mutex.queue|
    ensures p.data.Keys == p.ring.todo.Keys
    ensures forall t | t in p.ring.mutex.held && t in p.ring.todo :: CanTakeTurn(p, t)
    ensures forall t | t in p.ring.copying :: CanLand(p, t)
  {
    P.InitInv(size);
    P.InvRun(P.Init(size), trace);
  }
}
