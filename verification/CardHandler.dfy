/**
 iw_handler on the card's registers and the two rings, which lie in one DMA area; and the card, which
 moves bytes through the rings and raises its interrupt flags when a half ends.
 */
module CardHandler {
  import opened Runs
  import opened Bytes
  import opened Halves
  import C = CodecRegisters
  import P = PcmPlayback
  import Q = PcmRecord
  import Play = Playback
  import Rec = Record
  import PlaybackRuns
  import RecordRuns

  const PLAY: bv8 := 0x10
  const RECORD: bv8 := 0x20

  predicate Flagged(hw: C.Hw, cause: bv8)
    requires C.Proper(hw)
  {
    hw.csr1 & 0x01 != 0 && hw.regs[0x18] & cause != 0
  }

  /** Without a codec interrupt there is no cause of one. */
  ghost predicate Consistent(hw: C.Hw) {
    C.Proper(hw) && (hw.csr1 & 0x01 == 0 ==> hw.regs[0x18] & 0x70 == 0)
  }

  // Both rings and the two flags

  datatype Both = Both(p: Play.Play, r: Rec.Rec, plays: bool, records: bool)

  datatype Event =
    | PlayOne      // the card plays a byte
    | HearOne      // the card records a byte
    | Handle       // iw_handler is called

  ghost predicate CanHandle(b: Both) { PlaybackRuns.CanServe(b.p) && RecordRuns.CanServe(b.r) }

  /** What is flagged is served, and no flag is left. */
  function Handled(b: Both): Both
    requires CanHandle(b)
  {
    Both(if b.plays then PlaybackRuns.Served(b.p) else b.p, if b.records then RecordRuns.Served(b.r) else b.r,
         false, false)
  }

  function PlayedOne(b: Both): Both
    requires Play.CanFetch(b.p)
  {
    var q := Play.DoFetch(b.p);
    b.(p := q, plays := b.plays || q.dmaPos == 0)
  }

  function HeardOne(b: Both, byt: byte): Both
    requires Rec.CanCapture(b.r)
  {
    var q := Rec.DoCapture(b.r, byt);
    b.(r := q, records := b.records || q.dmaPos == 0)
  }

  ghost function After(b: Both, e: Event, sound: nat -> byte): Both {
    match e
    case PlayOne => if Play.CanFetch(b.p) then PlayedOne(b) else b
    case HearOne => if Rec.CanCapture(b.r) then HeardOne(b, sound(|b.r.captured|)) else b
    case Handle => if CanHandle(b) then Handled(b) else b
  }

  ghost function AfterAll(b: Both, events: seq<Event>, sound: nat -> byte): Both {
    if events == [] then b else
    After(AfterAll(b, events[..|events| - 1], sound), events[|events| - 1], sound)
  }

  /** No half ends before the interrupt of the one before has been handled. */
  ghost predicate OnTime(b: Both, e: Event, sound: nat -> byte) {
    match e
    case PlayOne => Play.CanFetch(b.p) && PlayedOne(b).p.dmaPos == 0 ==> !b.plays
    case HearOne => Rec.CanCapture(b.r) && HeardOne(b, sound(|b.r.captured|)).r.dmaPos == 0 ==> !b.records
    case Handle => true
  }

  ghost predicate Prompt(b: Both, events: seq<Event>, sound: nat -> byte) {
    events == []
    || (Prompt(b, events[..|events| - 1], sound)
        && OnTime(AfterAll(b, events[..|events| - 1], sound), events[|events| - 1], sound))
  }

  /** A flag says that a half has ended and not been swapped; and nothing has gone astray exactly if the handler
      has been prompt. */
  ghost predicate FlagsTell(b: Both, prompt: bool) {
    && b.p.ring.size > 0 && b.r.ring.size > 0
    && b.plays == b.p.unserved && b.records == b.r.unserved
    && (prompt <==> !b.p.astray && !b.r.astray)
  }

  lemma PlayTells(b: Both, prompt: bool)
    requires FlagsTell(b, prompt) && Play.CanFetch(b.p)
    ensures var d := PlayedOne(b); FlagsTell(d, prompt && (d.p.dmaPos == 0 ==> !b.plays))
  {
  }

  lemma HearTells(b: Both, prompt: bool, heard: byte)
    requires FlagsTell(b, prompt) && Rec.CanCapture(b.r)
    ensures var d := HeardOne(b, heard); FlagsTell(d, prompt && (d.r.dmaPos == 0 ==> !b.records))
  {
    Rec.CaptureFrame(b.r, heard);
  }

  lemma HandleTells(b: Both, prompt: bool)
    requires FlagsTell(b, prompt) && CanHandle(b)
    ensures FlagsTell(Handled(b), prompt)
  {
  }

  lemma EventTells(b: Both, prompt: bool, e: Event, sound: nat -> byte)
    requires FlagsTell(b, prompt)
    ensures FlagsTell(After(b, e, sound), prompt && OnTime(b, e, sound))
  {
    hide FlagsTell, PlayedOne, HeardOne, Handled;
    match e
    case PlayOne => if Play.CanFetch(b.p) { PlayTells(b, prompt); }
    case HearOne => if Rec.CanCapture(b.r) { HearTells(b, prompt, sound(|b.r.captured|)); }
    case Handle => if CanHandle(b) { HandleTells(b, prompt); }
  }

  /** Once the flags are clear when the rings start, both rings keep in step with the card in a run of card and
      handler, that is nothing goes astray, if and only if each interrupt is handled before the next
      half of its ring ends. */
  lemma {:induction false} InStepIfPrompt(wrSize: nat, rdSize: nat, events: seq<Event>, sound: nat -> byte)
    requires wrSize > 0 && rdSize > 0
    ensures var start := Both(Play.Init(wrSize), Rec.Init(rdSize), false, false);
            FlagsTell(AfterAll(start, events, sound), Prompt(start, events, sound))
  {
    if events != [] {
      var start, init := Both(Play.Init(wrSize), Rec.Init(rdSize), false, false), events[..|events| - 1];
      InStepIfPrompt(wrSize, rdSize, init, sound);
      EventTells(AfterAll(start, init, sound), Prompt(start, init, sound), events[|events| - 1], sound);
    }
  }

  // What happens when an event happens

  ghost predicate Fit(b: Both) {
    && PlaybackRuns.CanServe(b.p) && b.p.dmaPos < b.p.ring.size
    && RecordRuns.CanServe(b.r) && b.r.dmaPos < b.r.ring.size == |b.r.one| == |b.r.two|
  }

  /** No event is without its effect: the card plays the byte it has come to, or stores what it hears where it has come
      to, and raises the flag at the end of a half; the handler serves what is flagged, and leaves no flag. */
  ghost predicate Happened(b: Both, e: Event, q: Both, sound: nat -> byte) {
    match e
    case PlayOne =>
      && b.p.dmaPos < |Play.Buffer(b.p, b.p.dmaHalf)|
      && q.p.output == b.p.output + [Play.Buffer(b.p, b.p.dmaHalf)[b.p.dmaPos]] && q.r == b.r
      && q.plays == (b.plays || b.p.dmaPos + 1 == b.p.ring.size) && q.records == b.records
    case HearOne =>
      && q.r.captured == b.r.captured + [sound(|b.r.captured|)] && q.p == b.p
      && q.plays == b.plays && q.records == (b.records || b.r.dmaPos + 1 == b.r.ring.size)
    case Handle =>
      && !q.plays && !q.records
      && q.p.ring.services == b.p.ring.services + (if b.plays then 1 else 0)
      && q.r.ring.services == b.r.ring.services + (if b.records then 1 else 0)
  }

  lemma PlayHappens(b: Both, sound: nat -> byte)
    requires Fit(b)
    ensures Fit(After(b, PlayOne, sound)) && Happened(b, PlayOne, After(b, PlayOne, sound), sound)
  {
    hide Play.DoFetch;
    Play.FetchFrame(b.p);
    FetchPlace(b.p);
  }

  lemma FetchPlace(p: Play.Play)
    requires Play.CanFetch(p) && p.dmaPos < p.ring.size
    ensures Play.DoFetch(p).dmaPos == if p.dmaPos + 1 == p.ring.size then 0 else p.dmaPos + 1
  {
    hide Play.Settled;
  }

  lemma HearHappens(b: Both, sound: nat -> byte)
    requires Fit(b)
    ensures Fit(After(b, HearOne, sound)) && Happened(b, HearOne, After(b, HearOne, sound), sound)
  {
    Rec.CaptureFrame(b.r, sound(|b.r.captured|));
  }

  lemma HandleHappens(b: Both, sound: nat -> byte)
    requires Fit(b)
    ensures Fit(After(b, Handle, sound)) && Happened(b, Handle, After(b, Handle, sound), sound)
  {
    hide PlaybackRuns.Served, RecordRuns.Served;
    PlayServed(b.p);
    RecordServed(b.r);
  }

  lemma PlayServed(p: Play.Play)
    requires PlaybackRuns.CanServe(p)
    ensures var q := PlaybackRuns.Served(p);
            && PlaybackRuns.CanServe(q) && q.dmaPos == p.dmaPos && q.ring.size == p.ring.size
            && q.ring.services == p.ring.services + 1
  {
  }

  lemma RecordServed(r: Rec.Rec)
    requires RecordRuns.CanServe(r)
    ensures var q := RecordRuns.Served(r);
            && RecordRuns.CanServe(q) && q.dmaPos == r.dmaPos && q.ring.size == r.ring.size
            && q.one == r.one && q.two == r.two && q.ring.services == r.ring.services + 1
  {
  }

  lemma EventHappens(b: Both, e: Event, sound: nat -> byte)
    requires Fit(b)
    ensures Fit(After(b, e, sound)) && Happened(b, e, After(b, e, sound), sound)
  {
    match e
    case PlayOne => PlayHappens(b, sound);
    case HearOne => HearHappens(b, sound);
    case Handle => HandleHappens(b, sound);
  }

  lemma {:induction false} EventsHappen(wrSize: nat, rdSize: nat, events: seq<Event>, e: Event, sound: nat -> byte)
    requires wrSize > 0 && rdSize > 0
    ensures var start := Both(Play.Init(wrSize), Rec.Init(rdSize), false, false);
            && Fit(AfterAll(start, events, sound))
            && Happened(AfterAll(start, events, sound), e, AfterAll(start, events + [e], sound), sound)
  {
    hide After, Happened;
    var start := Both(Play.Init(wrSize), Rec.Init(rdSize), false, false);
    assert (events + [e])[..|events|] == events;
    if events != [] {
      EventsHappen(wrSize, rdSize, events[..|events| - 1], events[|events| - 1], sound);
      EventHappens(AfterAll(start, events[..|events| - 1], sound), events[|events| - 1], sound);
    }
    EventHappens(AfterAll(start, events, sound), e, sound);
  }

  /** iw_start_record_dma leaves flags alone.  A record flag that is left over from an earlier session is served:
      the readers' half is then the one that the card records into, without an interrupt waiting. */
  lemma LeftOverFlag(wrSize: nat, rdSize: nat, sound: nat -> byte)
    requires wrSize > 0 && rdSize > 0
    ensures var b := AfterAll(Both(Play.Init(wrSize), Rec.Init(rdSize), false, true), [Handle], sound);
            b.r.astray && !b.r.unserved && b.r.dmaHalf == b.r.ring.cur && !b.records
  {
    var start := Both(Play.Init(wrSize), Rec.Init(rdSize), false, true);
    assert AfterAll(start, [Handle], sound) == After(AfterAll(start, [], sound), Handle, sound);
  }

  // The code, and the card's side of it

  class Card {
    const codec: C.Codec
    const playback: P.Device
    const record: Q.Device

    constructor (codec: C.Codec, playback: P.Device, record: Q.Device)
      ensures this.codec == codec && this.playback == playback && this.record == record
    {
      this.codec, this.playback, this.record := codec, playback, record;
    }

    /** The rings as pcm_open lays them out: the record ring somewhere behind the playback ring. */
    ghost predicate Apart() reads playback, record {
      && playback.area == record.area && playback.mutex != record.mutex
      && playback.wr2 + playback.wrSize <= record.rd1
    }

    ghost predicate Valid()
      reads codec, playback, playback.mutex, playback.area, record, record.mutex, record.area
    {
      Apart() && C.Proper(codec.hw) && playback.Valid() && record.Valid()
    }

    /** Both rings and the flags as they are now. */
    ghost function Now(): Both
      requires C.Proper(codec.hw)
      reads codec, playback, record
    {
      Both(playback.model, record.model, Flagged(codec.hw, PLAY), Flagged(codec.hw, RECORD))
    }

    /** iw_handler: true for B_INVOKE_SCHEDULER.  What is flagged is served, each by its handler as it
        is on its own, although both work in one area; the scheduler is asked for exactly if a waiting
        client has been released; and no cause is left.  Without a codec interrupt nothing happens. */
    method Handler() returns (schedule: bool)
      requires Valid()
      modifies codec, playback, playback.mutex, record, record.mutex, playback.area
      ensures Valid() && CanHandle(old(Now())) && Now() == Handled(old(Now()))
      ensures schedule == (old(codec.hw).csr1 & 0x01 != 0
                           && ((old(codec.hw).regs[0x18] & 0x10 != 0 && old(playback.mutex.waitingCount) > 0)
                               || (old(codec.hw).regs[0x18] & 0x20 != 0 && old(record.mutex.waitingCount) > 0)))
      ensures playback.model == if old(codec.hw).csr1 & 0x01 != 0 && old(codec.hw).regs[0x18] & 0x10 != 0
                                then PlaybackRuns.Served(old(playback.model)) else old(playback.model)
      ensures record.model == if old(codec.hw).csr1 & 0x01 != 0 && old(codec.hw).regs[0x18] & 0x20 != 0
                              then RecordRuns.Served(old(record.model)) else old(record.model)
      ensures if old(codec.hw).csr1 & 0x01 == 0 then codec.hw == old(codec.hw)
              else codec.hw.csr1 & 0x01 == 0 && codec.hw.regs[0x18] & 0x70 == 0
                   && codec.hw.regs[0x18] & 0x8F == old(codec.hw).regs[0x18] & 0x8F
      ensures Consistent(old(codec.hw)) ==> Consistent(codec.hw)
      ensures codec.hw.cidxr & 0xE0 == old(codec.hw).cidxr & 0xE0
      ensures forall i | 0 <= i < 32 && i != 0x18 :: codec.hw.regs[i] == old(codec.hw).regs[i]
    {
      hide PlaybackRuns.Served, RecordRuns.Served, PlaybackRuns.CanServe, RecordRuns.CanServe;
      hide P.Device.Valid, Q.Device.Valid;
      CanAlways();
      schedule := false;
      if C.In(codec.hw, 2) & 0x01 != 0 {
        var source := codec.Peek(C.CSR3I);
        schedule := Serve(source & 0x10 != 0, source & 0x20 != 0);
        codec.ClearInterrupts();
      }
    }

    lemma CanAlways()
      requires playback.Valid() && record.Valid()
      ensures PlaybackRuns.CanServe(playback.model) && RecordRuns.CanServe(record.model)
    {
      P.Known(playback.wrSize, playback.trace, playback.model);
      Q.Known(record.rdSize, record.trace, record.model);
    }

    method Serve(plays: bool, records: bool) returns (schedule: bool)
      requires Apart() && playback.Valid() && record.Valid()
      modifies playback, playback.mutex, record, record.mutex, playback.area
      ensures Apart() && playback.Valid() && record.Valid()
      ensures plays ==> PlaybackRuns.CanServe(old(playback.model))
      ensures playback.model == if plays then PlaybackRuns.Served(old(playback.model)) else old(playback.model)
      ensures records ==> RecordRuns.CanServe(old(record.model))
      ensures record.model == if records then RecordRuns.Served(old(record.model)) else old(record.model)
      ensures schedule == ((plays && old(playback.mutex.waitingCount) > 0)
                           || (records && old(record.mutex.waitingCount) > 0))
    {
      hide PlaybackRuns.Served, RecordRuns.Served, PlaybackRuns.CanServe, RecordRuns.CanServe;
      schedule := false;
      if plays {
        schedule := ServePlayback();
      }
      if records {
        var released := record.RecordHandler();
        schedule := schedule || released;
      }
    }

    /** The playback handler does not touch the record ring. */
    method ServePlayback() returns (released: bool)
      requires Apart() && playback.Valid() && record.Valid()
      modifies playback, playback.mutex, playback.area
      ensures Apart() && playback.Valid() && record.Valid()
      ensures PlaybackRuns.CanServe(old(playback.model)) && playback.model == PlaybackRuns.Served(old(playback.model))
      ensures released == (old(playback.mutex.waitingCount) > 0)
    {
      hide PlaybackRuns.Served, PlaybackRuns.CanServe, P.Device.Counts, Q.Device.Counts;
      ghost var a := record.area[..];
      released := playback.PlaybackHandler();
      RecordKept(a);
    }

    lemma RecordKept(a: seq<byte>)
      requires Apart() && playback.Layout() && record.Layout() && |a| == record.area.Length
      requires var p, r := playback, record;
               && r.model.one == Cut(a, r.rd1, r.rd2, r.rd2 + r.rdSize).one
               && r.model.two == Cut(a, r.rd1, r.rd2, r.rd2 + r.rdSize).two
               && p.Outside().1 == Cut(a, p.wr1, p.wr2, p.wr2 + p.wrSize).after
      ensures record.Holds(record.model)
    {
      RingBehind(a, record.area[..], playback.wr1, playback.wr2, playback.wr2 + playback.wrSize,
                 record.rd1, record.rd2, record.rd2 + record.rdSize);
    }

    /** The card raises a flag. */
    method Raise(cause: bv8)
      requires Consistent(codec.hw) && (cause == PLAY || cause == RECORD)
      modifies codec
      ensures Consistent(codec.hw)
      ensures Flagged(codec.hw, PLAY) == (Flagged(old(codec.hw), PLAY) || cause == PLAY)
      ensures Flagged(codec.hw, RECORD) == (Flagged(old(codec.hw), RECORD) || cause == RECORD)
    {
      FlagBits(codec.hw.csr1, codec.hw.regs[C.CSR3I], cause);
      codec.hw := codec.hw.(csr1 := codec.hw.csr1 | 1,
                            regs := codec.hw.regs[C.CSR3I := codec.hw.regs[C.CSR3I] | cause]);
    }

    /** The card plays a byte, and interrupts at the end of a half. */
    method PlayByte()
      requires Valid() && Consistent(codec.hw)
      modifies codec, playback
      ensures Valid() && Consistent(codec.hw) && Play.CanFetch(old(playback.model)) && Now() == PlayedOne(old(Now()))
      ensures old(playback.dma) < playback.area.Length
              && playback.model.output == old(playback.model).output + [playback.area[old(playback.dma)]]
      ensures playback.dma == playback.wr1 || playback.dma == playback.wr2 ==>
                codec.hw.csr1 & 0x01 != 0 && codec.hw.regs[0x18] & 0x10 != 0
    {
      hide Play.DoFetch, P.Device.Valid, Q.Device.Valid;
      var _ := playback.Fetch();
      PlaybackAt();
      if playback.dma == playback.wr1 || playback.dma == playback.wr2 {
        Raise(PLAY);
      }
    }

    /** The card records a byte, which does not touch the playback ring, and interrupts at the end of a half. */
    method HearByte(sound: nat -> byte)
      requires Valid() && Consistent(codec.hw)
      modifies codec, record, record.area
      ensures Valid() && Consistent(codec.hw) && Rec.CanCapture(old(record.model))
      ensures Now() == HeardOne(old(Now()), sound(|old(record.model).captured|))
      ensures old(record.dma) < record.area.Length
              && record.area[..] == old(record.area[..])[old(record.dma) := sound(|old(record.model).captured|)]
      ensures record.dma == record.rd1 || record.dma == record.rd2 ==>
                codec.hw.csr1 & 0x01 != 0 && codec.hw.regs[0x18] & 0x20 != 0
    {
      hide Rec.DoCapture, P.Device.Valid, Q.Device.Valid;
      StoreByte(sound);
      RecordAt();
      if record.dma == record.rd1 || record.dma == record.rd2 {
        Raise(RECORD);
      }
    }

    lemma PlaybackAt()
      requires playback.Valid()
      ensures playback.dma == playback.wr1 || playback.dma == playback.wr2 <==> playback.model.dmaPos == 0
    {
      P.Known(playback.wrSize, playback.trace, playback.model);
    }

    lemma RecordAt()
      requires record.Valid()
      ensures record.dma == record.rd1 || record.dma == record.rd2 <==> record.model.dmaPos == 0
    {
      Q.Known(record.rdSize, record.trace, record.model);
    }

    method StoreByte(sound: nat -> byte)
      requires Apart() && playback.Valid() && record.Valid()
      modifies record, record.area
      ensures Apart() && playback.Valid() && record.Valid() && Rec.CanCapture(old(record.model))
      ensures record.model == Rec.DoCapture(old(record.model), sound(|old(record.model).captured|))
      ensures old(record.dma) < record.area.Length
              && record.area[..] == old(record.area[..])[old(record.dma) := sound(|old(record.model).captured|)]
    {
      hide Rec.DoCapture, P.Device.Counts, Q.Device.Counts;
      ghost var a := playback.area[..];
      record.Capture(sound);
      PlaybackKept(a);
    }

    lemma PlaybackKept(a: seq<byte>)
      requires Apart() && playback.Layout() && record.Layout() && |a| == playback.area.Length
      requires var p, r := playback, record;
               && p.model.one == Cut(a, p.wr1, p.wr2, p.wr2 + p.wrSize).one
               && p.model.two == Cut(a, p.wr1, p.wr2, p.wr2 + p.wrSize).two
               && r.Outside().0 == Cut(a, r.rd1, r.rd2, r.rd2 + r.rdSize).before
      ensures playback.Holds(playback.model)
    {
      RingBefore(a, playback.area[..], playback.wr1, playback.wr2, playback.wr2 + playback.wrSize,
                 record.rd1, record.rd2, record.rd2 + record.rdSize);
    }

    /** The card and the handler, in any order. */
    method Run(events: seq<Event>, sound: nat -> byte)
      requires Valid() && Consistent(codec.hw)
      modifies codec, playback, playback.mutex, record, record.mutex, playback.area, record.area
      ensures Valid() && Consistent(codec.hw) && Now() == AfterAll(old(Now()), events, sound)
    {
      hide PlayedOne, HeardOne, Handled, Valid, CanHandle;
      for i := 0 to |events|
        invariant Valid() && Consistent(codec.hw) && Now() == AfterAll(old(Now()), events[..i], sound)
      {
        assert events[..i + 1][..i] == events[..i];
        match events[i]
        case PlayOne => PlayByte();
        case HearOne => HearByte(sound);
        case Handle => var _ := Handler();
      }
      assert events[..|events|] == events;
    }
  }

  lemma FlagBits(csr1: bv8, csr3: bv8, cause: bv8)
    requires csr1 & 0x01 == 0 ==> csr3 & 0x70 == 0
    requires cause == PLAY || cause == RECORD
    ensures (csr1 | 1) & 0x01 != 0
    ensures ((csr3 | cause) & PLAY != 0) == ((csr1 & 0x01 != 0 && csr3 & PLAY != 0) || cause == PLAY)
    ensures ((csr3 | cause) & RECORD != 0) == ((csr1 & 0x01 != 0 && csr3 & RECORD != 0) || cause == RECORD)
  {
  }

  /** Two areas that differ only up to the end of the first ring hold the same second ring. */
  lemma RingBehind(a: seq<byte>, b: seq<byte>, wr1: nat, wr2: nat, end: nat, rd1: nat, rd2: nat, last: nat)
    requires wr1 <= wr2 <= end <= rd1 <= rd2 <= last <= |a| == |b|
    requires Cut(a, wr1, wr2, end).after == Cut(b, wr1, wr2, end).after
    ensures Cut(b, rd1, rd2, last).one == Cut(a, rd1, rd2, last).one
    ensures Cut(b, rd1, rd2, last).two == Cut(a, rd1, rd2, last).two
  {
    SameWithin(a, b, end, |a|, rd1, rd2);
    SameWithin(a, b, end, |a|, rd2, last);
  }

  /** And two that differ only from the beginning of the second on hold the same first. */
  lemma RingBefore(a: seq<byte>, b: seq<byte>, wr1: nat, wr2: nat, end: nat, rd1: nat, rd2: nat, last: nat)
    requires wr1 <= wr2 <= end <= rd1 <= rd2 <= last <= |a| == |b|
    requires Cut(a, rd1, rd2, last).before == Cut(b, rd1, rd2, last).before
    ensures Cut(b, wr1, wr2, end).one == Cut(a, wr1, wr2, end).one
    ensures Cut(b, wr1, wr2, end).two == Cut(a, wr1, wr2, end).two
  {
    SameWithin(a, b, 0, rd1, wr1, wr2);
    SameWithin(a, b, 0, rd1, wr2, end);
  }

  lemma SameWithin(a: seq<byte>, b: seq<byte>, from: nat, upto: nat, lo: nat, hi: nat)
    requires from <= lo <= hi <= upto <= |a| == |b| && a[from..upto] == b[from..upto]
    ensures a[lo..hi] == b[lo..hi]
  {
    SubSlice(a, from, upto, lo - from, hi - from);
    SubSlice(b, from, upto, lo - from, hi - from);
  }
}
