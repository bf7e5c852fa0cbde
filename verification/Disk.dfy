/**
 The RAM and ROM disks of disk.c: block transfers split into an odd head byte, a body of 16-bit
 words and an odd tail byte.
 */
module Disk {
  import opened Bytes
  import opened LocalMemory

  const WORD32 := 0x1_0000_0000      // uint32 arithmetic is modulo this

  datatype Status = Ok | ReadOnly

  /** len after the odd head byte has been taken off: a uint32 that is decremented. */
  function AfterHead(pos: nat, len: nat): nat {
    if pos % 2 == 1 then (len + WORD32 - 1) % WORD32 else len
  }

  /** The number of bytes that the head, the body and the tail move together. */
  function Moved(pos: nat, len: nat): nat {
    pos % 2 + AfterHead(pos, len) / 2 * 2 + AfterHead(pos, len) % 2
  }

  /** From pos to the end of the span or of the disk there are end - pos bytes.  The transfer moves these exactly
      if it is not an empty one at an odd place, in which case it moves 4 GB; and what it reports is what it moves,
      except that it leaves out the odd head byte. */
  lemma MovesWhatItShould(pos: nat, n: nat, size: nat)
    requires pos < size < 0x1_0000_0000 && n < 0x1_0000_0000
    ensures var end := if pos + n < size then pos + n else size;
            && (Moved(pos, end - pos) == end - pos <==> !(n == 0 && pos % 2 == 1))
            && (n == 0 && pos % 2 == 1 ==> Moved(pos, end - pos) == 0x1_0000_0000)
            && AfterHead(pos, end - pos) == Moved(pos, end - pos) - pos % 2
  {
  }

  /** How many bytes a read or write of RAM moves. */
  function Span(pos: nat, n: nat, size: nat): nat
    requires pos < size
  {
    if n == 0 && pos % 2 == 1 then 0x1_0000_0000 else if pos + n < size then n else size - pos
  }

  class Device {
    const isRom: bool
    const size: nat
    const memory: Memory

    constructor (memory: Memory, isRom: bool, size: nat)
      ensures this.memory == memory && this.isRom == isRom && this.size == size
    {
      this.memory, this.isRom, this.size := memory, isRom, size;
    }

    /** As setup_interwave makes the two disks: at most 16 MB of either. */
    ghost predicate Valid()
      reads this, memory
    {
      size <= 0x100_0000 && Proper(memory.hw) && !RomSelected(memory.hw.lmci)
    }

    /** disk_read; lines 184-203 are ReadRam. */
    method Read(pos: nat, data: array<byte>, n: nat) returns (status: Status, nread: nat)
      requires Valid() && n < 0x1_0000_0000
      requires pos < size ==>
                 (if !isRom then Span(pos, n, size) else if pos + n < size then n else size - pos) <= data.Length
      modifies memory, data
      ensures Valid() && status == Ok && SameStore(old(memory.hw), memory.hw)
      ensures pos >= size ==> nread == 0 && data[..] == old(data[..])
      // the bytes from pos to the end of the span or of the disk
      ensures pos < size && (isRom || !(n == 0 && pos % 2 == 1)) ==>
                var end := if pos + n < size then pos + n else size;
                && end - pos <= data.Length
                && nread == end - pos - (if !isRom && pos % 2 == 1 then 1 else 0)
                && data[..] == Splice(old(data[..]), 0, (if isRom then memory.hw.rom else memory.hw.ram)[pos..end])
      // an empty read at an odd place of the RAM disk wraps: 4 GB of memory, over and over
      ensures pos < size && !isRom && n == 0 && pos % 2 == 1 ==>
                && nread == 0xFFFF_FFFF && 0x1_0000_0000 <= data.Length
                && (forall k: nat | k < 0x1_0000_0000 :: data[k] == memory.hw.ram[(pos + k) % 0x100_0000])
                && data[0x1_0000_0000..] == old(data[0x1_0000_0000..])
    {
      if pos >= size {
        return Ok, 0;
      }
      var len := if n < size - pos then n else size - pos;
      ghost var d := data[..];
      MovesWhatItShould(pos, n, size);
      if isRom {
        memory.RomPeekBlock8(data, len, pos);
        nread := len;
        LoadIsSlice(memory.hw.rom, pos, len);
      } else {
        nread := ReadRam(pos, data, len);
        if Moved(pos, len) == len { LoadIsSlice(memory.hw.ram, pos, len); }
        else { Wrapped(d, data[..], memory.hw.ram, pos, 0x1_0000_0000); }
      }
      status := Ok;
    }

    method ReadRam(pos: nat, data: array<byte>, len: nat) returns (reported: nat)
      requires Valid() && Moved(pos, len) <= data.Length
      modifies memory, data
      ensures Valid() && SameStore(old(memory.hw), memory.hw)
      ensures reported == AfterHead(pos, len)
      ensures data[..] == Splice(old(data[..]), 0, Load(memory.hw.ram, pos, Moved(pos, len)))
    {
      ghost var d := data[..];
      assert data[..] == Splice(d, 0, Load(memory.hw.ram, pos, 0));
      hide Splice, Load;
      var p, l, at := pos, len, 0;
      if p % 2 == 1 {
        ReadByte(p, data, 0, d, pos);
        p, at := p + 1, 1;
        l := (l + WORD32 - 1) % WORD32;
      }
      ReadWords(p, data, at, l / 2, d, pos);
      if l % 2 == 1 {
        ReadByte(p + l - 1, data, at + l - 1, d, pos);
      }
      reported := l;
    }

    /** One byte more of the span that starts at pos. */
    method ReadByte(p: nat, data: array<byte>, at: nat, ghost d: seq<byte>, ghost pos: nat)
      requires Valid() && at < data.Length == |d| && p == pos + at
      requires data[..] == Splice(d, 0, Load(memory.hw.ram, pos, at))
      modifies memory, data
      ensures Valid() && SameStore(old(memory.hw), memory.hw)
      ensures data[..] == Splice(d, 0, Load(memory.hw.ram, pos, at + 1))
    {
      var b := memory.RamPeek8(p);
      data[at] := b;
      LoadOne(d, memory.hw.ram, pos, at);
    }

    method ReadWords(p: nat, data: array<byte>, at: nat, words: nat, ghost d: seq<byte>, ghost pos: nat)
      requires Valid() && at + 2 * words <= data.Length == |d| && p == pos + at
      requires data[..] == Splice(d, 0, Load(memory.hw.ram, pos, at))
      modifies memory, data
      ensures Valid() && SameStore(old(memory.hw), memory.hw)
      ensures data[..] == Splice(d, 0, Load(memory.hw.ram, pos, at + 2 * words))
    {
      memory.RamPeekBlock16(data, at, words, p);
      Joined(d, memory.hw.ram, pos, at, 2 * words);
    }

    /** disk_write; lines 240-246 are WriteRam. */
    method Write(pos: nat, data: array<byte>, n: nat) returns (status: Status, nwritten: nat)
      requires Valid() && n < 0x1_0000_0000
      requires pos < size && !isRom ==> Span(pos, n, size) <= data.Length
      modifies memory
      ensures Valid() && memory.hw.rom == old(memory.hw).rom && memory.hw.lmci == old(memory.hw).lmci
      ensures status == if isRom then ReadOnly else Ok
      ensures isRom || pos >= size ==> nwritten == 0 && memory.hw == old(memory.hw)
      // the bytes from pos to the end of the span or of the disk
      ensures !isRom && pos < size && !(n == 0 && pos % 2 == 1) ==>
                var end := if pos + n < size then pos + n else size;
                && end - pos <= data.Length && end <= |old(memory.hw).ram|
                && nwritten == end - pos - pos % 2
                && memory.hw.ram == Splice(old(memory.hw).ram, pos, data[..end - pos])
      // an empty write at an odd place wraps: 4 GB are written, over and over
      ensures !isRom && pos < size && n == 0 && pos % 2 == 1 ==>
                && nwritten == 0xFFFF_FFFF && 0x1_0000_0000 <= data.Length
                && memory.hw.ram == Store(old(memory.hw).ram, pos, data[..0x1_0000_0000])
    {
      if isRom {
        return ReadOnly, 0;
      }
      if pos >= size {
        return Ok, 0;
      }
      var len := if n < size - pos then n else size - pos;
      ghost var mem := memory.hw.ram;
      MovesWhatItShould(pos, n, size);
      nwritten := WriteRam(pos, data, len);
      if Moved(pos, len) == len { StoreIsSplice(mem, pos, data[..len]); }
      status := Ok;
    }

    method WriteRam(pos: nat, data: array<byte>, len: nat) returns (reported: nat)
      requires Valid() && Moved(pos, len) <= data.Length
      modifies memory
      ensures Valid() && memory.hw.rom == old(memory.hw).rom && memory.hw.lmci == old(memory.hw).lmci
      ensures reported == AfterHead(pos, len)
      ensures memory.hw.ram == Store(old(memory.hw).ram, pos, data[..Moved(pos, len)])
    {
      ghost var mem := memory.hw.ram;
      hide Store;
      var p, l, at := pos, len, 0;
      if p % 2 == 1 {
        WriteByte(p, data, 0, mem, pos);
        p, at := p + 1, 1;
        l := (l + WORD32 - 1) % WORD32;
      }
      WriteWords(p, data, at, l / 2, mem, pos);
      if l % 2 == 1 {
        WriteByte(p + l - 1, data, at + l - 1, mem, pos);
      }
      reported := l;
    }

    /** One byte more of the span that starts at pos. */
    method WriteByte(p: nat, data: array<byte>, at: nat, ghost mem: seq<byte>, ghost pos: nat)
      requires Valid() && at < data.Length && p == pos + at && |mem| == SPACE
      requires memory.hw.ram == Store(mem, pos, data[..at])
      modifies memory
      ensures Valid() && memory.hw.rom == old(memory.hw).rom && memory.hw.lmci == old(memory.hw).lmci
      ensures memory.hw.ram == Store(mem, pos, data[..at + 1])
    {
      memory.RamPoke8(p, data[at]);
      StoreOne(mem, pos, data[..at], data[at]);
      assert data[..at] + [data[at]] == data[..at + 1];
    }

    method WriteWords(p: nat, data: array<byte>, at: nat, words: nat, ghost mem: seq<byte>, ghost pos: nat)
      requires Valid() && at + 2 * words <= data.Length && p == pos + at && |mem| == SPACE
      requires memory.hw.ram == Store(mem, pos, data[..at])
      modifies memory
      ensures Valid() && memory.hw.rom == old(memory.hw).rom && memory.hw.lmci == old(memory.hw).lmci
      ensures memory.hw.ram == Store(mem, pos, data[..at + 2 * words])
    {
      memory.RamPokeBlock16(data, at, words, p);
      StoreAppend(mem, pos, data[..at], data[at..at + 2 * words]);
      assert data[..at] + data[at..at + 2 * words] == data[..at + 2 * words];
    }
  }

  lemma StoreOne(mem: seq<byte>, a: nat, bs: seq<byte>, b: byte)
    requires |mem| == SPACE
    ensures Store(mem, a, bs + [b]) == Store(mem, a, bs)[(a + |bs|) % SPACE := b]
  {
    assert (bs + [b])[..|bs|] == bs;
  }

  /** A disk_write followed by a disk_read of the same span returns the bytes written, those that fit on the disk,
      unless the span is an empty one at an odd place; and both report as many, except for an odd head byte. */
  method RoundTrip(disk: Device, pos: nat, data: array<byte>, back: array<byte>, n: nat)
    returns (nwritten: nat, nread: nat)
    requires disk.Valid() && !disk.isRom && data != back
    requires pos < disk.size && n < 0x1_0000_0000 && !(n == 0 && pos % 2 == 1)
    requires (if pos + n < disk.size then n else disk.size - pos) <= data.Length
    requires (if pos + n < disk.size then n else disk.size - pos) <= back.Length
    modifies disk.memory, back
    ensures var end := if pos + n < disk.size then pos + n else disk.size;
            && back[..end - pos] == data[..end - pos] && back[end - pos..] == old(back[end - pos..])
            && nwritten == nread == end - pos - pos % 2
  {
    ghost var end := if pos + n < disk.size then pos + n else disk.size;
    var _, written := disk.Write(pos, data, n);
    assert disk.memory.hw.ram[pos..end] == data[..end - pos];
    var _, read := disk.Read(pos, back, n);
    nwritten, nread := written, read;
  }

  /** What is loaded over and over. */
  lemma Wrapped(was: seq<byte>, d: seq<byte>, mem: seq<byte>, a: nat, n: nat)
    requires |mem| == SPACE && n <= |was| && d == Splice(was, 0, Load(mem, a, n))
    ensures |d| == |was| && d[n..] == was[n..]
    ensures forall k: nat | k < n :: d[k] == mem[(a + k) % 0x100_0000]
  {
  }

  /** Two loads side by side are one. */
  lemma Joined(d: seq<byte>, mem: seq<byte>, a: nat, m: nat, n: nat)
    requires |mem| == SPACE && m + n <= |d|
    ensures Splice(Splice(d, 0, Load(mem, a, m)), m, Load(mem, a + m, n)) == Splice(d, 0, Load(mem, a, m + n))
  {
    LoadAppend(mem, a, m, n);
  }
}
