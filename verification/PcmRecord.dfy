/**
 The record half of the PCM device as the driver has it, with the card's DMA storing into the
 same memory.  As in PcmPlayback, each method is a piece of code that runs without interference,
 and a ghost copy of the transition system of module Record goes along with every piece.
 */
module PcmRecord {
  import opened Runs
  import opened Bytes
  import M = CountingMutex
  import R = Ring
  import Rec = Record
  import opened RecordRuns
  import opened Halves

  class Device {
    const area: array<byte>        // low_mem
    const rdSize: nat
    const rd1: nat                 // rd_1 and rd_2, as offsets into the area
    const rd2: nat
    var rdCur: nat
    var rdTotal: nat
    var wasRead: nat
    const mutex: M.DriverMutex     // rd_mutex
    // The card: where it stores next, how many bytes it has stored, and its interrupt line
    var dma: nat
    var heard: nat
    var pending: bool

    ghost var model: Rec.Rec
    ghost var trace: seq<Rec.Step> // the run that has led to the model's state

    ghost function Offset(h: R.Half): nat reads this { if h.One? then rd1 else rd2 }

    ghost predicate Layout() reads this {
      rdSize > 0 && rd2 == rd1 + rdSize && rd2 + rdSize <= area.Length
    }

    ghost function Cells(): Parts
      requires Layout()
      reads this, area
    {
      Cut(area[..], rd1, rd2, rd2 + rdSize)
    }

    /** The half that begins at an offset. */
    ghost function HalfAt(at: nat): seq<byte>
      requires Layout()
      reads this, area
    {
      if at == rd1 then Cells().one else Cells().two
    }

    /** The arrays and counters are as in state p of the system. */
    ghost predicate Shows(p: Rec.Rec) reads this, mutex, area {
      Layout() && Holds(p) && Counts(p)
    }

    ghost predicate Holds(p: Rec.Rec)
      requires Layout()
      reads this, area
    {
      p.one == Cells().one && p.two == Cells().two
    }

    ghost predicate Counts(p: Rec.Rec) reads this, mutex {
      && p.ring.size == rdSize
      && rdCur == Offset(p.ring.cur)
      && wasRead == p.ring.used
      && rdTotal == p.ring.total
      && mutex.Shows(p.ring.mutex)
      && dma == Offset(p.dmaHalf) + p.dmaPos
      && heard == |p.captured|
      && pending == p.unserved
    }

    ghost predicate Valid() reads this, mutex, area {
      Shows(model) && model.ring.lock.Free? && Exec(Rec.Next, Rec.Init(rdSize), trace) == Some(model)
    }

    /** Everything outside the record ring. */
    ghost function Outside(): (seq<byte>, seq<byte>)
      requires Layout()
      reads this, area
    {
      (Cells().before, Cells().after)
    }

    /** The model goes along with what has been done to the arrays and counters. */
    ghost method Advance(steps: seq<Rec.Step>, q: Rec.Rec)
      requires Exec(Rec.Next, Rec.Init(rdSize), trace) == Some(model)
      requires Exec(Rec.Next, model, steps) == Some(q) && q.ring.lock.Free? && Shows(q)
      modifies this`model, this`trace
      ensures Valid() && model == q && trace == old(trace) + steps && Outside() == old(Outside())
    {
      ExecAppend(Rec.Next, Rec.Init(rdSize), trace, model, steps);
      model, trace := q, trace + steps;
    }

    /** pcm_open, the record part of the first client's setup. */
    constructor Open(area: array<byte>, at: nat, size: nat)
      requires size > 0 && at + 2 * size <= area.Length
      modifies area
      ensures Valid() && this.area == area && rd1 == at && rdSize == size
      ensures model == Rec.Init(size) && trace == []
      ensures rdCur == rd2 == at + size && wasRead == 0 && rdTotal == 0 && dma == rd1 && heard == 0 && !pending
      ensures fresh(mutex) && mutex.sem == 1 && mutex.blocked == [] && mutex.waitingCount == 0
      ensures area[..] == Splice(old(area[..]), at, Zeros(2 * size))
    {
      this.area := area;
      rdSize, rd1, rd2 := size, at, at + size;
      rdCur, wasRead, rdTotal := at + size, 0, 0;
      dma, heard, pending := at, 0, false;
      mutex := new M.DriverMutex.Create();
      model, trace := Rec.Init(size), [];
      new;
      Clear(area, at, 2 * size, Zeros(2 * size));
      assert Cells().one == Zeros(size);
      assert Cells().two == Zeros(size);
    }

    // The card

    /** The DMA stores one byte, whatever readers and handler are doing: into the ring's cells one after the other,
        from its start on, around and around. */
    method Capture(sound: nat -> byte)
      requires Valid()
      modifies this`dma, this`heard, this`pending, this`model, this`trace, area
      ensures Valid() && Outside() == old(Outside())
      ensures Rec.CanCapture(old(model)) && old(heard) == |old(model).captured|
      ensures model == Rec.DoCapture(old(model), sound(old(heard)))
      ensures rd1 <= old(dma) < rd1 + 2 * rdSize <= area.Length
      ensures area[..] == old(area[..])[old(dma) := sound(old(heard))] && heard == old(heard) + 1
      ensures dma == if old(dma) + 1 == rd1 + 2 * rdSize then rd1 else old(dma) + 1
      ensures pending == (old(pending) || dma == rd1 || dma == rd2)
    {
      Known(rdSize, trace, model);
      ghost var b := sound(heard);
      StoreByte(sound);
      CaptureStep(model, b);
      Advance([Rec.Capture(b)], Rec.DoCapture(model, b));
    }

    method StoreByte(sound: nat -> byte)
      requires Shows(model) && Rec.CanCapture(model) && Rec.Sizes(model)
      modifies this`dma, this`heard, this`pending, area
      ensures Shows(Rec.DoCapture(model, sound(old(heard)))) && Outside() == old(Outside())
      ensures rd1 <= old(dma) < rd1 + 2 * rdSize <= area.Length
      ensures area[..] == old(area[..])[old(dma) := sound(old(heard))] && heard == old(heard) + 1
      ensures dma == if old(dma) + 1 == rd1 + 2 * rdSize then rd1 else old(dma) + 1
      ensures pending == (old(pending) || dma == rd1 || dma == rd2)
    {
      ghost var b := sound(heard);
      Rec.CaptureFrame(model, b);
      NextPlace(model.dmaHalf, model.dmaPos, rdSize, rd1, rd2, dma);
      PutByte(sound(heard), model.dmaHalf, model.dmaPos);
      MoveOn();
    }

    method MoveOn()
      requires rdSize > 0
      modifies this`dma, this`heard, this`pending
      ensures heard == old(heard) + 1
      ensures dma == if old(dma) + 1 == rd2 + rdSize then rd1 else old(dma) + 1
      ensures pending == (old(pending) || old(dma) + 1 == rd2 || old(dma) + 1 == rd2 + rdSize)
    {
      heard := heard + 1;
      dma := dma + 1;
      if dma == rd2 || dma == rd2 + rdSize {
        pending := true;
        if dma != rd2 { dma := rd1; }
      }
    }

    method PutByte(b: byte, ghost half: R.Half, ghost pos: nat)
      requires Layout() && pos < rdSize && dma == Offset(half) + pos
      modifies area
      ensures Cells() == if half.One? then old(Cells()).(one := old(Cells()).one[pos := b])
                         else old(Cells()).(two := old(Cells()).two[pos := b])
      ensures area[..] == old(area[..])[dma := b]
    {
      ghost var a, cells := area[..], Cells();
      area[dma] := b;
      SpliceOne(a, dma, b);
      SpliceOne(if half.One? then cells.one else cells.two, pos, b);
      WrittenIntoHalf(a, area[..], rd1, rd2, rd2 + rdSize, half, pos, dma, [b]);
    }

    /** It goes on to the end of its half, where it interrupts. */
    method FillHalf(sound: nat -> byte)
      requires Valid()
      modifies this`dma, this`heard, this`pending, this`model, this`trace, area
      ensures Valid() && Outside() == old(Outside()) && pending && SameControl(old(model), model)
    {
      while !pending
        invariant Valid() && Outside() == old(Outside()) && SameControl(old(model), model)
        decreases !pending, rdSize - model.dmaPos
      {
        Known(rdSize, trace, model);
        Rec.CaptureFrame(model, sound(heard));
        Capture(sound);
      }
    }

    // mutex_acquire

    method AddWaiter(t: nat)
      requires Valid() && M.Enabled(model.ring.mutex, M.Add(t))
      requires t in model.ring.todo && model.ring.todo[t] > 0 && t !in model.ring.copying
      modifies this`model, this`trace, mutex
      ensures Valid() && model == Queued(old(model), M.Apply(old(model).ring.mutex, M.Add(t)))
    {
      mutex.AddWaiter(model.ring.mutex, t);
      AddStep(model, t);
      Advance([Rec.Quiet(R.Add(t))], Queued(model, M.Apply(model.ring.mutex, M.Add(t))));
    }

    method TakeSem(t: nat) returns (granted: bool)
      requires Valid() && t in model.ring.mutex.added
      modifies this`model, this`trace, mutex
      ensures Valid() && model == Queued(old(model), M.Apply(old(model).ring.mutex, M.Acquire(t)))
      ensures granted == (old(mutex.sem) > 0)
      ensures mutex.sem == old(mutex.sem) - (if granted then 1 else 0)
    {
      granted := mutex.Take(model.ring.mutex, t);
      AcquireStep(model, t);
      Advance([Rec.Quiet(R.Acquire(t))], Queued(model, M.Apply(model.ring.mutex, M.Acquire(t))));
    }

    // The interrupt

    /** iw_record_handler, called for whatever reason: returns whether to invoke the scheduler. */
    method RecordHandler() returns (schedule: bool)
      requires Valid()
      modifies this, mutex
      ensures Valid() && CanServe(old(model)) && model == Served(old(model)) && Outside() == old(Outside())
      ensures schedule == (old(mutex.waitingCount) > 0)
      ensures rdCur == (if old(rdCur) == rd1 then rd2 else rd1) && wasRead == 0 && !pending
      ensures rdTotal == old(rdTotal) + rdSize
    {
      hide Served, CanServe;
      Known(rdSize, trace, model);
      ghost var steps, q := ServeTo(model);
      schedule := HandlerBody(q);
      Advance(steps, q);
    }

    method HandlerBody(ghost q: Rec.Rec) returns (schedule: bool)
      requires Shows(model) && CanServe(model) && q == Served(model)
      modifies this`rdCur, this`wasRead, this`rdTotal, this`pending, mutex
      ensures Shows(q) && Outside() == old(Outside()) && schedule == (old(mutex.waitingCount) > 0)
      ensures rdCur == (if old(rdCur) == rd1 then rd2 else rd1) && wasRead == 0 && !pending
      ensures rdTotal == old(rdTotal) + rdSize
    {
      rdCur := if rdCur == rd1 then rd2 else rd1;
      wasRead := 0;
      rdTotal := rdTotal + rdSize;
      pending := false;
      schedule := mutex.Release(model.ring.mutex);
    }

    // pcm_read

    /** Decide how much to take, and let the next reader in if that does not empty the half. */
    method TakeBlock(ghost m: M.Mutex, toRead: nat) returns (src: nat, n: nat)
      requires wasRead <= rdSize && mutex.Shows(m) && m.release.Idle?
      modifies this`wasRead, mutex
      ensures src == old(rdCur) + old(wasRead) && wasRead == old(wasRead) + n
      ensures var available := rdSize - old(wasRead);
              && n == (if available > toRead then toRead else available)
              && mutex.Shows(if available > toRead then M.Released(m) else m)
    {
      n := rdSize - wasRead;
      if n > toRead {
        var _ := mutex.Release(m);
        n := toRead;
      }
      src := rdCur + wasRead;
      wasRead := wasRead + n;
    }

    /** One turn of a reader under the spinlock. */
    method TakeTurn(t: nat, toRead: nat) returns (src: nat, n: nat)
      requires Valid() && t in model.ring.mutex.held && t in model.ring.todo && toRead == model.ring.todo[t]
      modifies this`wasRead, this`model, this`trace, mutex
      ensures Valid() && CanTakeTurn(old(model), t) && model == Turn(old(model), t)
      ensures src == old(rdCur) + old(wasRead) && n == BlockSize(old(model), t)
      ensures n == if rdSize - old(wasRead) > toRead then toRead else rdSize - old(wasRead)
      ensures wasRead == old(wasRead) + n
    {
      Known(rdSize, trace, model);
      src, n := TakeBlock(model.ring.mutex, toRead);
      ghost var steps := TurnSteps(model, t);
      Advance(steps, Turn(model, t));
    }

    /** The memcpy of one block, with the lock released. */
    method CopyBlock(t: nat, data: array<byte>, to: nat, src: nat, n: nat)
      requires Valid() && data != area && t in model.ring.copying && to + n <= data.Length
      requires var c := model.ring.copying[t]; n == c.len && src == Offset(c.half) + c.off
      modifies this`model, this`trace, data
      ensures Valid() && CanLand(old(model), t) && model == Landed(old(model), t)
      ensures data[..] == Splice(old(data[..]), to, InHand(old(model), t))
      ensures src + n <= area.Length && data[..] == Splice(old(data[..]), to, area[src..src + n])
    {
      hide Splice, Landed, Counts, Cut;
      Known(rdSize, trace, model);
      LandKeeps(t);
      CopyOut(data, to, src, n, model.ring.copying[t]);
      LandStep(model, t);
      Advance([Rec.Copy(t)], Landed(model, t));
    }

    /** The bytes in hand are in the ring; and the arrays and counters still show the state when they have landed. */
    lemma LandKeeps(t: nat)
      requires Shows(model) && CanLand(model, t)
      ensures Shows(Landed(model, t)) && Landed(model, t).ring.lock == model.ring.lock
      ensures model.ring.copying[t].off + model.ring.copying[t].len <= rdSize
    {
    }

    /** The memcpy seen from the two halves. */
    method CopyOut(data: array<byte>, to: nat, src: nat, n: nat, ghost c: R.Chunk)
      requires Layout() && data != area && to + n <= data.Length
      requires c.off + n <= rdSize && src == Offset(c.half) + c.off
      modifies data
      ensures data[..] == Splice(old(data[..]), to,
                                 (if c.half.One? then Cells().one else Cells().two)[c.off..c.off + n])
      ensures src + n <= area.Length && data[..] == Splice(old(data[..]), to, area[src..src + n])
    {
      hide Splice, Cut;
      SliceOfHalf(area[..], rd1, rd2, rd2 + rdSize, c.half, c.off, n);
      Memcpy(data, to, area, src, n);
    }

    // The beginning and the end of a call, of any thread

    ghost method BeginCall(t: nat, n: nat)
      requires Valid() && t !in model.ring.todo
      modifies this`model, this`trace
      ensures Valid() && Rec.Enabled(old(model), Rec.Begin(t, n)) && model == Rec.DoBegin(old(model), t, n)
    {
      RecordRuns.BeginStep(model, t, n);
      Advance([Rec.Begin(t, n)], Rec.DoBegin(model, t, n));
    }

    ghost method EndCall(t: nat)
      requires Valid() && t in model.ring.todo && model.ring.todo[t] == 0 && t !in model.ring.copying
      modifies this`model, this`trace
      ensures Valid() && R.Enabled(old(model).ring, R.End(t)) && model == Rec.DoEnd(old(model), t)
    {
      RecordRuns.EndStep(model, t);
      Advance([Rec.End(t)], Rec.DoEnd(model, t));
    }

    // pcm_read as a whole, for one reader and any number of interrupts

    /** The card fills its half and interrupts. */
    method Interrupt(sound: nat -> byte)
      requires Valid()
      modifies this, mutex, area
      ensures Valid() && Outside() == old(Outside()) && Interrupted(old(model), model)
    {
      FillHalf(sound);
      Known(rdSize, trace, model);
      var _ := RecordHandler();
    }

    method Interrupts(k: nat, sound: nat -> byte, ghost added: set<nat>)
      requires Valid() && M.Waits(model.ring.mutex, added, [], {})
      modifies this, mutex, area
      ensures Valid() && M.Waits(model.ring.mutex, added, [], {}) && Outside() == old(Outside())
      ensures SameCalls(old(model), model)
      ensures k == 0 ==> model == old(model) && mutex.sem == old(mutex.sem)
    {
      for i := 0 to k
        invariant Valid() && M.Waits(model.ring.mutex, added, [], {}) && Outside() == old(Outside())
        invariant SameCalls(old(model), model)
        invariant i == 0 ==> model == old(model)
      {
        ghost var before := model;
        Interrupt(sound);
        M.ReleaseNobody(before.ring.mutex, added, {});
      }
    }

    /** The semaphore: if there is no token, one interrupt more to be woken by. */
    method GetToken(t: nat, sound: nat -> byte)
      requires Valid() && M.Waits(model.ring.mutex, {t}, [], {})
      modifies this, mutex, area
      ensures Valid() && M.Waits(model.ring.mutex, {}, [], {t}) && Outside() == old(Outside())
      ensures SameCalls(old(model), model)
      ensures model.ring.used == 0 || (mutex.sem < old(mutex.sem) && model.ring.used == old(model).ring.used)
    {
      var granted := TakeSem(t);
      if !granted {
        ghost var m := model.ring.mutex;
        Known(rdSize, trace, model);
        Interrupt(sound);
        M.WakeFirst(m, t);
      }
    }

    /** mutex_acquire as a whole: wait for a turn, with some interrupts before the semaphore is
        reached. */
    method WaitForTurn(t: nat, ticks: nat, sound: nat -> byte)
      requires Valid() && M.Waits(model.ring.mutex, {}, [], {})
      requires t in model.ring.todo && model.ring.todo[t] > 0 && t !in model.ring.copying
      modifies this, mutex, area
      ensures Valid() && M.Waits(model.ring.mutex, {}, [], {t}) && Outside() == old(Outside())
      ensures SameCalls(old(model), model)
      ensures model.ring.used == 0 || ticks > 0
              || (mutex.sem < old(mutex.sem) && model.ring.used == old(model).ring.used)
    {
      AddWaiter(t);
      Interrupts(ticks, sound, {t});
      GetToken(t, sound);
    }

    /** The reservation, and some interrupts after it. */
    method ReserveBlock(t: nat, toRead: nat, ticks: nat, sound: nat -> byte) returns (src: nat, n: nat)
      requires Valid() && M.Waits(model.ring.mutex, {}, [], {t}) && InCall(model, t, toRead)
      modifies this, mutex, area
      ensures Valid() && M.Waits(model.ring.mutex, {}, [], {}) && Outside() == old(Outside())
      ensures Reserving(model, t, toRead, n) && model.got == old(model).got && Timely(old(model), model)
      ensures ticks == 0 ==> model.stream == old(model).stream + Tag(t, InHand(model, t))
      ensures var c := model.ring.copying[t]; src == Offset(c.half) + c.off
      ensures n == 0 ==> toRead == 0 || ticks > 0 || (mutex.sem == old(mutex.sem) && old(model).ring.used > 0)
    {
      src, n := TakeTurn(t, toRead);
      TurnLeaves(old(model), t, toRead);
      Interrupts(ticks, sound, {});
      Known(rdSize, trace, model);
    }

    /** One iteration of pcm_read's loop, after the wait, with some interrupts between reservation
        and copy; the call reads up to offset upto. */
    method ReadBlock(t: nat, data: array<byte>, to: nat, upto: nat, ticks: nat, sound: nat -> byte) returns (n: nat)
      requires Valid() && M.Waits(model.ring.mutex, {}, [], {t})
      requires data != area && to <= upto <= data.Length && InCall(model, t, upto - to)
      modifies this, mutex, area, data
      ensures Valid() && M.Waits(model.ring.mutex, {}, [], {}) && Outside() == old(Outside())
      ensures n <= upto - to && InCall(model, t, upto - to - n) && Timely(old(model), model)
      ensures data[..to] == old(data[..to]) && forall k | to + n <= k < data.Length :: data[k] == old(data[k])
      ensures Rec.Got(model.got, t) == Rec.Got(old(model).got, t) + data[to..to + n]
      ensures ticks == 0 ==> model.stream == old(model).stream + Tag(t, data[to..to + n])
      ensures n == 0 ==> to == upto || ticks > 0 || (mutex.sem == old(mutex.sem) && old(model).ring.used > 0)
    {
      hide Valid, Landed, CanLand;
      var src;
      src, n := ReserveBlock(t, upto - to, ticks, sound);
      ghost var mid, d := model, data[..];
      CopyBlock(t, data, to, src, n);
      LandingLeaves(mid, t, upto - to, n);
      SpliceParts(d, data[..], to, InHand(mid, t));
    }

    /** t is in the middle of a call, alone, that began in a given past: what it still has to read, what it has
        been given since, and that this is its part of the stream, if the call is to be prompt. */
    ghost predicate Reading(t: nat, toRead: nat, given: seq<byte>, past: Past)
      reads this, mutex, area
    {
      && Valid() && M.Waits(model.ring.mutex, {}, [], {})
      && InCall(model, t, toRead) && Rec.Got(model.got, t) == Rec.Got(past.model.got, t) + given
      && Outside() == past.outside && Timely(past.model, model)
      && (past.prompt ==> model.stream == past.model.stream + Tag(t, given))
    }

    /** One iteration of pcm_read's loop.  If it moves nothing, a token is gone. */
    method Iterate(t: nat, data: array<byte>, to: nat, upto: nat, ticks: (nat, nat), sound: nat -> byte,
                   ghost past: Past)
      returns (n: nat)
      requires data != area && to < upto <= data.Length && Reading(t, upto - to, data[..to], past)
      requires past.prompt ==> ticks.1 == 0
      modifies this, mutex, area, data
      ensures n <= upto - to && Reading(t, upto - to - n, data[..to + n], past)
      ensures forall k | to + n <= k < data.Length :: data[k] == old(data[k])
      ensures n == 0 ==> ticks != (0, 0) || mutex.sem < old(mutex.sem)
    {
      hide Valid, InCall, SameCalls, Timely;
      ghost var start, d := model, data[..to];
      CallIs(start, t, upto - to);
      WaitForTurn(t, ticks.0, sound);
      ghost var mid := model;
      StillInCall(start, mid, t, upto - to);
      n := ReadBlock(t, data, to, upto, ticks.1, sound);
      Onward(past, start, mid, model, t, d, data[to..to + n], data[..to + n]);
    }

    /** The state of a call that has read the first n of count bytes. */
    ghost predicate HasRead(t: nat, data: array<byte>, n: nat, count: nat, past: Past)
      requires n <= count <= data.Length
      reads this, mutex, area, data
    {
      Reading(t, count - n, data[..n], past)
    }

    /** pcm_read's loop. */
    method ReadLoop(t: nat, data: array<byte>, count: nat, ticks: seq<(nat, nat)>, sound: nat -> byte, ghost past: Past)
      returns (readSoFar: nat)
      requires data != area && count <= data.Length && HasRead(t, data, 0, count, past)
      requires past.prompt ==> NoneLate(ticks)
      modifies this, mutex, area, data
      ensures readSoFar == count && HasRead(t, data, count, count, past)
      ensures forall k | count <= k < data.Length :: data[k] == old(data[k])
    {
      hide Reading;
      readSoFar := 0;
      var toRead, i := count, 0;
      while toRead > 0
        invariant readSoFar + toRead == count && HasRead(t, data, readSoFar, count, past)
        invariant forall k | count <= k < data.Length :: data[k] == old(data[k])
        decreases toRead, if i < |ticks| then |ticks| - i else 0, mutex.sem
      {
        var n := Iterate(t, data, readSoFar, count, if i < |ticks| then ticks[i] else (0, 0), sound, past);
        readSoFar := readSoFar + n;
        toRead := toRead - n;
        i := i + 1;
      }
    }

    /** pcm_read for a thread that is alone with the interrupts.  ticks says how many interrupts
        arrive in each iteration before the reader reaches the semaphore, and how many between its
        reservation and its memcpy; when it has to block, one more arrives; sound is what the card
        hears.  The caller's buffer holds what the system says t has been given by the call: as many
        bytes as were asked for, unless that number is negative as an int.  If no interrupt comes
        between a reservation and its memcpy, they are what the call has appended to the stream; and if the
        DMA has not stored into the half before, none of them has been overtaken. */
    method Read(t: nat, data: array<byte>, count: nat, ticks: seq<(nat, nat)>, sound: nat -> byte)
      returns (readSoFar: nat)
      requires Valid() && M.Waits(model.ring.mutex, {}, [], {}) && model.ring.todo == map[]
      requires data != area && count <= data.Length
      modifies this, mutex, area, data
      ensures Valid() && M.Waits(model.ring.mutex, {}, [], {}) && model.ring.todo == map[]
      ensures Outside() == old(Outside())
      ensures readSoFar == if count < 0x8000_0000 then count else 0
      ensures Rec.Got(model.got, t) == Rec.Got(old(model).got, t) + data[..readSoFar]
      ensures forall k | readSoFar <= k < data.Length :: data[k] == old(data[k])
      ensures NoneLate(ticks) ==> model.stream == old(model).stream + Tag(t, data[..readSoFar])
      ensures Timely(old(model), model)
    {
      var toRead: nat := if count < INT_LIMIT then count else 0;
      ghost var past := Past(model, Outside(), NoneLate(ticks));
      BeginAlone(t, count, past);
      assert data[..0] == [];
      readSoFar := ReadLoop(t, data, toRead, ticks, sound, past);
      EndAlone(t, data[..toRead], past);
    }

    ghost method BeginAlone(t: nat, n: nat, past: Past)
      requires Valid() && M.Waits(model.ring.mutex, {}, [], {}) && model.ring.todo == map[]
      requires past.model == model && past.outside == Outside()
      modifies this`model, this`trace
      ensures Reading(t, Rec.ToRead(n), [], past)
    {
      Known(rdSize, trace, model);
      BeginCall(t, n);
      assert past.model.stream + Tag(t, []) == past.model.stream;
    }

    ghost method EndAlone(t: nat, given: seq<byte>, past: Past)
      requires Reading(t, 0, given, past)
      modifies this`model, this`trace
      ensures Valid() && M.Waits(model.ring.mutex, {}, [], {}) && model.ring.todo == map[]
      ensures Rec.Got(model.got, t) == Rec.Got(past.model.got, t) + given && Outside() == past.outside
      ensures past.prompt ==> model.stream == past.model.stream + Tag(t, given)
      ensures Timely(past.model, model)
    {
      EndCall(t);
    }

    /** The device is in a state that a run of the transition system has reached, so what every run
        keeps is true of it: what t has been given is its part of the stream, apart from spoilt bytes, when it is
        not in the middle of a copy; the stream is the front parts of the halves given in turn, apart from
        overtaken bytes; and in memory the half that rd_cur points to is the one given last, apart from what
        the DMA has stored there since. */
    lemma StreamIsRecorded(t: nat)
      requires Valid()
      ensures t !in model.ring.copying ==>
                Rec.Right(Rec.Got(model.got, t), Project(model.stream, t), t, model.spoilt)
      ensures Rec.StreamInv(model.stream, model.consumed, model.given, wasRead, model.overtaken)
      ensures Rec.GivenInv(HalfAt(rdCur), model.given, model.over)
      ensures rdCur == Offset(model.ring.cur) && (!model.astray ==> Recorded(model, rdSize))
    {
      RecordedIs(rdSize, trace, model, t);
    }
  }

  /** The halves given to the readers and what has been recorded since, one after the other, are all that has
      been recorded, after a silent half to begin with. */
  ghost predicate Recorded(p: Rec.Rec, size: nat) {
    && p.dmaPos <= size == |Rec.Front(p)| == |Rec.Back(p)|
    && Zeros(size) + p.captured ==
       Rec.Contents(p.consumed) + p.given
       + if p.unserved then Rec.Front(p) + Rec.Back(p)[..p.dmaPos] else Rec.Front(p)[..p.dmaPos]
  }

  lemma RecordedIs(size: nat, trace: seq<Rec.Step>, p: Rec.Rec, t: nat)
    requires size > 0 && Exec(Rec.Next, Rec.Init(size), trace) == Some(p)
    ensures t !in p.ring.copying ==> Rec.Right(Rec.Got(p.got, t), Project(p.stream, t), t, p.spoilt)
    ensures Rec.StreamInv(p.stream, p.consumed, p.given, p.ring.used, p.overtaken)
    ensures Rec.GivenInv(Rec.Back(p), p.given, p.over)
    ensures !p.astray ==> Recorded(p, size)
  {
    Rec.RecordFidelity(size, trace, p);
    Rec.SizeRun(Rec.Init(size), trace);
  }

  /** What a call remembers of the moment when it began; and whether it is to be prompt. */
  datatype Past = Past(model: Rec.Rec, outside: (seq<byte>, seq<byte>), prompt: bool)

  /** No interrupt comes between a reservation and its memcpy. */
  predicate NoneLate(ticks: seq<(nat, nat)>) { forall i | 0 <= i < |ticks| :: ticks[i].1 == 0 }

  /** Nothing has gone astray from p on to q, and no byte has been overtaken, if the DMA had not stored into the
      back half already. */
  ghost predicate Timely(p: Rec.Rec, q: Rec.Rec) {
    q.astray == p.astray && (p.over == {} ==> q.over == {} && q.overtaken == p.overtaken)
  }

  lemma ServeTo(p: Rec.Rec) returns (steps: seq<Rec.Step>, q: Rec.Rec)
    requires CanServe(p)
    ensures q == Served(p) && Exec(Rec.Next, p, steps) == Some(q) && q.ring.lock.Free?
  {
    steps := Serve(p);
    q := Served(p);
  }

  /** Where the DMA goes in the area when it goes on in its half. */
  lemma NextPlace(half: R.Half, pos: nat, size: nat, at: nat, mid: nat, dma: nat)
    requires pos < size && mid == at + size && dma == (if half.One? then at else mid) + pos
    ensures var goesOn := pos + 1 < size;
            && (if dma + 1 == mid + size then at else dma + 1)
               == (if (if goesOn then half else R.Other(half)).One? then at else mid) + (if goesOn then pos + 1 else 0)
            && goesOn == !(dma + 1 == mid || dma + 1 == mid + size)
  {
  }

  /** Steps of the card only. */
  ghost predicate SameControl(p: Rec.Rec, q: Rec.Rec) {
    && q.ring == p.ring && q.stream == p.stream && q.got == p.got && q.asked == p.asked
    && q.overtaken == p.overtaken && q.astray == p.astray
  }

  // One reader at a time

  ghost predicate SameCalls(p: Rec.Rec, q: Rec.Rec) {
    && q.ring.size == p.ring.size && q.ring.todo == p.ring.todo && q.ring.copying == p.ring.copying
    && q.stream == p.stream && q.got == p.got && q.asked == p.asked
    && q.overtaken == p.overtaken && q.astray == p.astray && (p.over == {} ==> q.over == {})
  }

  /** What one interrupt does as far as a reader can tell. */
  ghost predicate Interrupted(p: Rec.Rec, q: Rec.Rec) {
    && SameCalls(p, q)
    && q.ring.used == 0
    && p.ring.mutex.release.Idle? && q.ring.mutex == M.Released(p.ring.mutex)
  }

  /** t is the only thread in a call, not copying, with so many bytes still to read. */
  ghost predicate InCall(p: Rec.Rec, t: nat, toRead: nat) {
    R.OnlyCall(p.ring, t, toRead) && p.ring.copying == map[]
  }

  lemma CallIs(p: Rec.Rec, t: nat, toRead: nat)
    requires InCall(p, t, toRead)
    ensures t in p.ring.todo && p.ring.todo[t] == toRead && t !in p.ring.copying
  {
  }

  lemma StillInCall(p: Rec.Rec, q: Rec.Rec, t: nat, toRead: nat)
    requires SameCalls(p, q) && InCall(p, t, toRead)
    ensures InCall(q, t, toRead)
  {
  }

  /** One iteration of a call that began in the past, from p1 over p2, when it has its turn, to p3. */
  lemma Onward(past: Past, p1: Rec.Rec, p2: Rec.Rec, p3: Rec.Rec, t: nat, d: seq<byte>, bs: seq<byte>, d': seq<byte>)
    requires Timely(past.model, p1) && SameCalls(p1, p2) && Timely(p2, p3) && d' == d + bs
    requires Rec.Got(p1.got, t) == Rec.Got(past.model.got, t) + d && Rec.Got(p3.got, t) == Rec.Got(p2.got, t) + bs
    requires past.prompt ==> p1.stream == past.model.stream + Tag(t, d) && p3.stream == p2.stream + Tag(t, bs)
    ensures Timely(past.model, p3) && Rec.Got(p3.got, t) == Rec.Got(past.model.got, t) + d'
    ensures past.prompt ==> p3.stream == past.model.stream + Tag(t, d')
  {
    Grows(Rec.Got(past.model.got, t), d, bs, d');
    TagGrows(past.model.stream, t, d, bs, d');
  }

  /** Of so many bytes t has reserved n and not copied them yet. */
  ghost predicate Reserving(p: Rec.Rec, t: nat, toRead: nat, n: nat) {
    && R.OnlyCall(p.ring, t, toRead) && p.ring.copying.Keys == {t} && p.ring.copying[t].len == n <= toRead
    && CanLand(p, t) && |InHand(p, t)| == n
  }

  lemma TurnLeaves(p: Rec.Rec, t: nat, toRead: nat)
    requires CanTakeTurn(p, t) && M.Waits(p.ring.mutex, {}, [], {t}) && InCall(p, t, toRead)
    ensures var q, n := Turn(p, t), BlockSize(p, t);
            && Reserving(q, t, toRead, n) && q.ring.copying[t] == R.Chunk(t, p.ring.cur, p.ring.used, n)
            && q.stream == p.stream + Tag(t, InHand(q, t))
            && M.Waits(q.ring.mutex, {}, [], {}) && q.ring.lock.Free? && q.got == p.got && Timely(p, q)
            && (n == 0 && toRead > 0 ==> q.ring.mutex.count == p.ring.mutex.count && p.ring.used == p.ring.size)
  {
    M.ReleaseNobody(p.ring.mutex, {}, {t});
    NoneOver(|p.stream|, p.ring.used, BlockSize(p, t));
  }

  lemma NoneOver(at: nat, used: nat, n: nat)
    ensures Rec.TooLate(at, used, n, {}) == {}
  {
    assert forall k: nat :: !Rec.IsOver(k, at, used, {});
  }

  lemma LandingLeaves(p: Rec.Rec, t: nat, toRead: nat, n: nat)
    requires Reserving(p, t, toRead, n)
    ensures var q := Landed(p, t);
            && InCall(q, t, toRead - n)
            && q.ring.mutex == p.ring.mutex && q.ring.lock == p.ring.lock && q.ring.size == p.ring.size
            && q.stream == p.stream && Timely(p, q)
            && Rec.Got(q.got, t) == Rec.Got(p.got, t) + InHand(p, t)
  {
  }

  /** What is known of every state the device can be in while nobody has the lock. */
  lemma Known(size: nat, trace: seq<Rec.Step>, p: Rec.Rec)
    requires size > 0 && Exec(Rec.Next, Rec.Init(size), trace) == Some(p) && p.ring.lock.Free?
    ensures Rec.Sizes(p) && p.ring.mutex.release.Idle?
    ensures Rec.CanCapture(p) && CanServe(p)
    ensures p.ring.mutex.count + p.ring.mutex.waiting == 1 + |p.ring.mutex.added| + |p.ring.mutex.queue|
    ensures forall t | t in p.ring.copying :: t in p.ring.todo
    ensures forall t | t in p.ring.mutex.held && t in p.ring.todo :: CanTakeTurn(p, t)
    ensures forall t | t in p.ring.copying :: CanLand(p, t)
  {
    Rec.InitInv(size);
    Rec.InvRun(Rec.Init(size), trace);
  }
}
