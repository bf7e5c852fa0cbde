/**
 The InterWave's local memory behind its general index and data ports: iw_peek and iw_poke for
 the P3XR block, and the memory access of iwmem.c on top of them.

 The device is an assumption of the model, as the driver's comments describe it: the general
 index register selects what the 8- and 16-bit data ports reach; LMALI and LMAHI are the two
 parts of a 24-bit address; LMBDR moves a byte and LMSBAI a little-endian word at that address;
 with LMCI[0] set the address then advances by what was moved, and LMCI[1] selects ROM.
 */
module LocalMemory {
  import opened Bytes

  const SPACE := 0x100_0000                    // addresses are 24 bits wide

  type word = x: int | 0 <= x < 0x1_0000

  datatype Hw = Hw(
    index: byte,                               // IGIDXR
    address: nat,                              // LMAHI and LMALI
    lmci: byte,
    ram: seq<byte>, rom: seq<byte>,
    regs: seq<word>                            // the other indexed registers
  )

  ghost predicate Proper(h: Hw) {
    h.address < 0x100_0000 && |h.ram| == 0x100_0000 && |h.rom| == 0x100_0000 && |h.regs| == 256
  }

  // The device

  const LMALI_INDEX := 0x43
  const LMAHI_INDEX := 0x44
  const LMSBAI_INDEX := 0x51
  const LMCI_INDEX := 0x53

  predicate RomSelected(lmci: byte) { lmci / 2 % 2 == 1 }

  function Selected(h: Hw): seq<byte> { if RomSelected(h.lmci) then h.rom else h.ram }

  /** The address after n bytes have moved. */
  function Advance(h: Hw, n: nat): nat {
    if h.lmci % 2 == 1 then (h.address + n) % SPACE else h.address
  }

  function StoreByte(h: Hw, v: byte): Hw
    requires Proper(h)
  {
    (if RomSelected(h.lmci) then h else h.(ram := h.ram[h.address := v])).(address := Advance(h, 1))
  }

  function StoreWord(h: Hw, w: word): Hw
    requires Proper(h)
  {
    (if RomSelected(h.lmci) then h
     else h.(ram := h.ram[h.address := w % 256][(h.address + 1) % SPACE := w / 256])).(address := Advance(h, 2))
  }

  function LoadWord(h: Hw): word
    requires Proper(h)
  {
    Selected(h)[h.address] as int + 256 * (Selected(h)[(h.address + 1) % SPACE] as int)
  }

  /** A byte written to a port at an offset from P3XR. */
  function Out8(h: Hw, port: nat, v: byte): Hw
    requires Proper(h)
  {
    if port == 3 then h.(index := v)
    else if port == 7 then StoreByte(h, v)
    else if port != 5 then h
    else if h.index == LMAHI_INDEX then h.(address := v * 0x1_0000 + h.address % 0x1_0000)
    else if h.index == LMCI_INDEX then h.(lmci := v)
    else h.(regs := h.regs[h.index := v])
  }

  /** A word written to the 16-bit data port. */
  function Out16(h: Hw, w: word): Hw
    requires Proper(h)
  {
    if h.index == LMALI_INDEX then h.(address := h.address / 0x1_0000 * 0x1_0000 + w)
    else if h.index == LMSBAI_INDEX then StoreWord(h, w)
    else h.(regs := h.regs[h.index := w])
  }

  function In8(h: Hw, port: nat): (byte, Hw)
    requires Proper(h)
  {
    if port == 3 then (h.index, h)
    else if port == 7 then (Selected(h)[h.address], h.(address := Advance(h, 1)))
    else if port != 5 then (0, h)
    else if h.index == LMAHI_INDEX then (h.address / 0x1_0000, h)
    else if h.index == LMCI_INDEX then (h.lmci, h)
    else (h.regs[h.index] % 256, h)
  }

  function In16(h: Hw): (word, Hw)
    requires Proper(h)
  {
    if h.index == LMALI_INDEX then (h.address % 0x1_0000, h)
    else if h.index == LMSBAI_INDEX then (LoadWord(h), h.(address := Advance(h, 2)))
    else (h.regs[h.index], h)
  }

  // Register mnemonics: id << 16 | index << 8 | port offset

  const IGIDXR := 0x001F_0003
  const I16DP := 0x0020_0004
  const LMALI := 0x0043_4304
  const LMAHI := 0x0044_4405
  const LMSBAI := 0x004C_5104
  const LMCI := 0x004E_5305
  const LMBDR := 0x005C_0007

  /** Mnemonics of the P3XR block that can be both read and written. */
  predicate InBlock(mnem: nat) { 0x1C <= mnem / 0x1_0000 <= 0x5C }

  /** Mnemonics of an indexed register that is read at the index it is written at, other than the word
      port of the memory. */
  predicate Register(mnem: nat) {
    && 0x22 <= mnem / 0x1_0000 < 0x5C
    && (mnem / 0x1_0000 > 0x3F || mnem / 256 % 256 >= 128)
    && (mnem % 256 == 5 || (mnem % 256 == 4 && mnem / 256 % 256 != LMSBAI_INDEX))
  }

  /** What of a datum fits the register. */
  function Narrowed(mnem: nat, v: word): word { if mnem % 256 == 4 then v else v % 256 }

  // What the driver writes to LMCI, as arithmetic and as the bit operations that it is

  /** (lmci | AUTOI) & DRAM_IO: auto-increment on, ROM off. */
  function ForRam(lmci: byte): (r: byte)
    ensures r % 2 == 1 && !RomSelected(r)
  {
    64 * (lmci / 64 % 2) + 4 * (lmci / 4 % 4) + 1
  }

  /** (lmci | AUTOI) | ROM_IO: auto-increment on, ROM on. */
  function ForRom(lmci: byte): (r: byte)
    ensures r % 2 == 1 && RomSelected(r)
  {
    lmci / 4 * 4 + 3
  }

  lemma ForRamIsMask(x: bv8)
    ensures ForRam(x as int) == ((x | 0x01) & 0x4D) as int
  {
    Shift6(x);
    Shift2(x);
    Low1(x >> 6);
    Low2(x >> 2);
    Assembled((x >> 6) & 1, (x >> 2) & 3);
    assert (((x >> 6) & 1) << 6) | (((x >> 2) & 3) << 2) | 1 == (x | 0x01) & 0x4D;
  }

  lemma ForRomIsMask(x: bv8)
    ensures ForRom(x as int) == ((x | 0x01) | 0x02) as int
  {
    assert (x | 0x01) | 0x02 == x | 3;
    ClearLow(x);
  }

  lemma Shift6(x: bv8) ensures (x as int) / 64 == (x >> 6) as int { }
  lemma Shift2(x: bv8) ensures (x as int) / 4 == (x >> 2) as int { }
  lemma Low1(x: bv8) ensures (x as int) % 2 == (x & 1) as int { }
  lemma Low2(x: bv8) ensures (x as int) % 4 == (x & 3) as int { }
  lemma ClearLow(x: bv8) ensures (x as int) / 4 * 4 + 3 == (x | 3) as int { }

  lemma Assembled(a: bv8, b: bv8)
    requires a <= 1 && b <= 3
    ensures 64 * (a as int) + 4 * (b as int) + 1 == ((a << 6) | (b << 2) | 1) as int
  {
  }

  // Plain memory: what the block operations amount to

  /** The n bytes from address a on. */
  function Load(mem: seq<byte>, a: nat, n: nat): (bs: seq<byte>)
    requires |mem| == SPACE
    ensures |bs| == n
  {
    seq(n, i requires 0 <= i < n => mem[(a + i) % SPACE])
  }

  /** The bytes bs stored one after the other from address a on. */
  function Store(mem: seq<byte>, a: nat, bs: seq<byte>): (r: seq<byte>)
    requires |mem| == SPACE
    ensures |r| == SPACE
  {
    if bs == [] then mem else
    var k := |bs| - 1;
    Store(mem, a, bs[..k])[(a + k) % SPACE := bs[k]]
  }

  lemma {:induction false} StoreAppend(mem: seq<byte>, a: nat, b: seq<byte>, c: seq<byte>)
    requires |mem| == SPACE
    ensures Store(mem, a, b + c) == Store(Store(mem, a, b), a + |b|, c)
  {
    if c == [] {
      assert b + c == b;
    } else {
      var k := |c| - 1;
      StoreAppend(mem, a, b, c[..k]);
      assert (b + c)[..|b| + k] == b + c[..k];
    }
  }

  /** Within the address space, storing replaces exactly the bytes at [a, a+|bs|). */
  lemma {:induction false} StoreIsSplice(mem: seq<byte>, a: nat, bs: seq<byte>)
    requires |mem| == SPACE && a + |bs| <= SPACE
    ensures Store(mem, a, bs) == Splice(mem, a, bs)
  {
    if bs != [] {
      var k := |bs| - 1;
      StoreIsSplice(mem, a, bs[..k]);
      assert (a + k) % SPACE == a + k;
      OneMore(mem, a, bs, k);
    }
  }

  lemma OneMore(mem: seq<byte>, a: nat, bs: seq<byte>, k: nat)
    requires |bs| == k + 1 && a + k < |mem|
    ensures Splice(mem, a, bs[..k])[a + k := bs[k]] == Splice(mem, a, bs)
  {
  }

  lemma LoadIsSlice(mem: seq<byte>, a: nat, n: nat)
    requires |mem| == SPACE && a + n <= SPACE
    ensures Load(mem, a, n) == mem[a..a + n]
  {
  }

  lemma LoadAppend(mem: seq<byte>, a: nat, m: nat, n: nat)
    requires |mem| == SPACE
    ensures Load(mem, a, m + n) == Load(mem, a, m) + Load(mem, a + m, n)
  {
  }

  /** What was stored is loaded again, even across the end of the address space. */
  lemma {:induction false} LoadStored(mem: seq<byte>, a: nat, bs: seq<byte>)
    requires |mem| == SPACE && |bs| <= SPACE
    ensures Load(Store(mem, a, bs), a, |bs|) == bs
  {
    if bs != [] {
      var k := |bs| - 1;
      LoadStored(mem, a, bs[..k]);
      var before, after := Store(mem, a, bs[..k]), Store(mem, a, bs);
      forall i | 0 <= i < |bs| ensures after[(a + i) % SPACE] == bs[i] {
        if i < k {
          Apart(a, i, k);
          assert Load(before, a, k)[i] == bs[..k][i];
        }
      }
    }
  }

  lemma Apart(a: nat, i: nat, k: nat)
    requires i < k < SPACE
    ensures (a + i) % SPACE != (a + k) % SPACE
  {
  }

  class Memory {
    var hw: Hw

    /** iw_peek, lines 644-666: the registers of the P3XR block.  Whatever is read, memory and
        registers stay as they are, and only a data register of the memory moves the address. */
    method Peek(mnem: nat) returns (v: word)
      requires Proper(hw) && InBlock(mnem)
      modifies this
      ensures Proper(hw) && (v, hw) == Peeked(old(hw), mnem)
      ensures SameStore(old(hw), hw) && (Register(mnem) ==> hw == old(hw).(index := hw.index))
    {
      var offset, id, index := mnem % 256, mnem / 0x1_0000, mnem / 256 % 256;
      if id == 0x5C {
        var (b, h) := In8(hw, 7);
        v, hw := b, h;
      } else if id <= 0x21 {
        if offset == 4 {
          var (w, h) := In16(hw);
          v, hw := w, h;
        } else {
          var (b, h) := In8(hw, offset);
          v, hw := b, h;
        }
      } else {
        if id <= 0x3F && index < 128 {
          index := index + 128;
        }
        hw := Out8(hw, 3, index);
        if offset == 4 {
          var (w, h) := In16(hw);
          v, hw := w, h;
        } else {
          var (b, h) := In8(hw, 5);
          v, hw := b, h;
        }
      }
    }

    /** iw_poke, lines 749-776.  ROM is never changed, and RAM only by the data registers. */
    method Poke(mnem: nat, datum: word)
      requires Proper(hw) && InBlock(mnem)
      modifies this
      ensures Proper(hw) && hw == Poked(old(hw), mnem, datum)
      ensures hw.rom == old(hw).rom && (Register(mnem) ==> hw.ram == old(hw).ram)
    {
      var offset, id, index := mnem % 256, mnem / 0x1_0000, mnem / 256 % 256;
      if id == 0x5C {
        hw := Out8(hw, 7, datum % 256);
        return;
      }
      if id <= 0x21 {
        if offset == 4 { hw := Out16(hw, datum); } else { hw := Out8(hw, offset, datum % 256); }
      } else {
        hw := Out8(hw, 3, index);
        if offset == 4 { hw := Out16(hw, datum); } else { hw := Out8(hw, 5, datum % 256); }
      }
    }

    /** iw_address */
    method Address(addr: nat)
      requires Proper(hw)
      modifies this
      ensures Proper(hw) && hw == old(hw).(index := 0x44, address := addr % 0x100_0000)
    {
      hide Poked;
      HighLow(hw.address, addr);
      AddressRegisters(hw, addr % 0x1_0000);
      Poke(LMALI, addr % 0x1_0000);
      AddressRegisters(hw, addr / 0x1_0000 % 256);
      Poke(LMAHI, addr / 0x1_0000 % 256);
    }

    /** iw_ram_peek_8 */
    method RamPeek8(addr: nat) returns (v: byte)
      requires Proper(hw) && hw.lmci / 2 % 2 == 0
      modifies this
      ensures Proper(hw) && v == hw.ram[addr % 0x100_0000]
      ensures SameStore(old(hw), hw)
    {
      Address(addr);
      var w := Peek(LMBDR);
      v := w;
    }

    /** iw_ram_poke_8 */
    method RamPoke8(addr: nat, v: byte)
      requires Proper(hw) && hw.lmci / 2 % 2 == 0
      modifies this
      ensures Proper(hw) && hw.ram == old(hw).ram[addr % 0x100_0000 := v]
      ensures hw.rom == old(hw).rom && hw.lmci == old(hw).lmci && hw.regs == old(hw).regs
    {
      Address(addr);
      Poke(LMBDR, v);
    }

    /** Save LMCI, and select RAM or ROM with auto-increment. */
    method SelectMemory(rom: bool) returns (lmci: byte)
      requires Proper(hw)
      modifies this
      ensures Proper(hw) && lmci == old(hw).lmci
      ensures hw == old(hw).(index := 0x53, lmci := if rom then ForRom(lmci) else ForRam(lmci))
    {
      ControlRegister(hw, 0);
      var w := Peek(LMCI);
      lmci := w;
      ControlRegister(hw, if rom then ForRom(lmci) else ForRam(lmci));
      Poke(LMCI, if rom then ForRom(lmci) else ForRam(lmci));
    }

    /** Save LMCI, select RAM with auto-increment, set the address and the word port. */
    method BeginWords(addr: nat) returns (lmci: byte)
      requires Proper(hw)
      modifies this
      ensures Proper(hw) && lmci == old(hw).lmci
      ensures hw == old(hw).(index := 0x51, address := addr % 0x100_0000, lmci := ForRam(lmci))
    {
      lmci := SelectMemory(false);
      Address(addr);
      Poke(IGIDXR, LMSBAI_INDEX);
    }

    /** Restore LMCI. */
    method RestoreLmci(lmci: byte)
      requires Proper(hw)
      modifies this
      ensures Proper(hw) && hw == old(hw).(index := 0x53, lmci := lmci)
    {
      ControlRegister(hw, lmci);
      Poke(LMCI, lmci);
    }

    /** iw_ram_peek_block_16: len words into data from offset at on. */
    method RamPeekBlock16(data: array<byte>, at: nat, len: nat, addr: nat)
      requires Proper(hw) && at + 2 * len <= data.Length
      modifies this, data
      ensures Proper(hw) && SameStore(old(hw), hw)
      ensures data[..] == Splice(old(data[..]), at, Load(hw.ram, addr, 2 * len))
      ensures forall i | at <= i < at + 2 * len :: data[i] == hw.ram[(addr + i - at) % 0x100_0000]
    {
      var lmci := BeginWords(addr);
      WordsIn(data, at, len, addr);
      RestoreLmci(lmci);
    }

    /** *data++ = iw_peek(iw,I16DP) */
    method WordIn(data: array<byte>, at: nat, ghost addr: nat)
      requires Proper(hw) && WordPort(hw) && hw.address == addr % SPACE && at + 2 <= data.Length
      modifies this, data
      ensures hw == old(hw).(address := (addr + 2) % SPACE)
      ensures data[..] == old(data[..])[at := hw.ram[addr % SPACE]][at + 1 := hw.ram[(addr + 1) % SPACE]]
    {
      NextWord(hw, addr);
      var w := Peek(I16DP);
      data[at], data[at + 1] := w % 256, w / 256;
    }

    method WordsIn(data: array<byte>, at: nat, len: nat, addr: nat)
      requires Proper(hw) && WordPort(hw) && hw.address == addr % SPACE && at + 2 * len <= data.Length
      modifies this, data
      ensures Proper(hw) && SameStore(old(hw), hw)
      ensures data[..] == Splice(old(data[..]), at, Load(hw.ram, addr, 2 * len))
    {
      ghost var h, d := hw, data[..];
      var i := 0;
      while i < len
        invariant i <= len
        invariant hw == h.(address := (addr + 2 * i) % SPACE)
        invariant data[..] == Splice(d, at, Load(h.ram, addr, 2 * i))
      {
        WordIn(data, at + 2 * i, addr + 2 * i);
        LoadTwo(d, at, h.ram, addr, 2 * i);
        i := i + 1;
      }
    }

    /** iw_ram_poke_block_16: len words from data, from offset at on. */
    method RamPokeBlock16(data: array<byte>, at: nat, len: nat, addr: nat)
      requires Proper(hw) && at + 2 * len <= data.Length
      modifies this
      ensures Proper(hw) && hw.ram == Store(old(hw).ram, addr, data[at..at + 2 * len])
      ensures hw.rom == old(hw).rom && hw.lmci == old(hw).lmci && hw.regs == old(hw).regs
    {
      var lmci := BeginWords(addr);
      WordsOut(data, at, len, addr);
      RestoreLmci(lmci);
    }

    /** iw_poke(iw,I16DP,*data++) */
    method WordOut(data: array<byte>, at: nat, ghost addr: nat)
      requires Proper(hw) && WordPort(hw) && hw.address == addr % SPACE && at + 2 <= data.Length
      modifies this
      ensures hw == old(hw).(address := (addr + 2) % SPACE,
                             ram := old(hw).ram[addr % SPACE := data[at]][(addr + 1) % SPACE := data[at + 1]])
    {
      Onward(addr, 1);
      Onward(addr, 2);
      var w: int := data[at] as int + 256 * (data[at + 1] as int);
      Poke(I16DP, w);
    }

    method WordsOut(data: array<byte>, at: nat, len: nat, addr: nat)
      requires Proper(hw) && WordPort(hw) && hw.address == addr % SPACE && at + 2 * len <= data.Length
      modifies this
      ensures Proper(hw)
      ensures hw == old(hw).(address := (addr + 2 * len) % SPACE,
                             ram := Store(old(hw).ram, addr, data[at..at + 2 * len]))
    {
      ghost var h := hw;
      var i := 0;
      while i < len
        invariant i <= len
        invariant hw == h.(address := hw.address, ram := hw.ram) && hw.address == (addr + 2 * i) % SPACE
        invariant hw.ram == Store(h.ram, addr, data[at..at + 2 * i])
      {
        WordOut(data, at + 2 * i, addr + 2 * i);
        StoreTwo(h.ram, addr, data[..], at, 2 * i, hw.ram);
        i := i + 1;
      }
    }

    /** iw_rom_peek_block_8: len bytes into data. */
    method RomPeekBlock8(data: array<byte>, len: nat, addr: nat)
      requires Proper(hw) && len <= data.Length
      modifies this, data
      ensures Proper(hw) && SameStore(old(hw), hw)
      ensures data[..] == Splice(old(data[..]), 0, Load(hw.rom, addr, len))
      ensures forall k: nat | k < len :: data[k] == hw.rom[(addr + k) % 0x100_0000]
    {
      var lmci := SelectMemory(true);
      Address(addr);
      BytesIn(data, len, addr);
      RestoreLmci(lmci);
    }

    /** *data++ = iw_peek(iw,LMBDR) */
    method ByteIn(data: array<byte>, at: nat, ghost addr: nat)
      requires Proper(hw) && hw.lmci % 2 == 1 && RomSelected(hw.lmci) && hw.address == addr % SPACE && at < data.Length
      modifies this, data
      ensures hw == old(hw).(address := (addr + 1) % SPACE)
      ensures data[..] == old(data[..])[at := hw.rom[addr % SPACE]]
    {
      Onward(addr, 1);
      var w := Peek(LMBDR);
      data[at] := w;
    }

    method BytesIn(data: array<byte>, len: nat, addr: nat)
      requires Proper(hw) && hw.lmci % 2 == 1 && RomSelected(hw.lmci) && hw.address == addr % SPACE
      requires len <= data.Length
      modifies this, data
      ensures Proper(hw) && SameStore(old(hw), hw)
      ensures data[..] == Splice(old(data[..]), 0, Load(hw.rom, addr, len))
    {
      ghost var h, d := hw, data[..];
      var i := 0;
      while i < len
        invariant i <= len
        invariant hw == h.(address := (addr + i) % SPACE)
        invariant data[..] == Splice(d, 0, Load(h.rom, addr, i))
      {
        ByteIn(data, i, addr + i);
        LoadOne(d, h.rom, addr, i);
        i := i + 1;
      }
    }
  }

  lemma LoadOne(d: seq<byte>, mem: seq<byte>, a: nat, n: nat)
    requires |mem| == SPACE && n < |d|
    ensures Splice(d, 0, Load(mem, a, n + 1)) == Splice(d, 0, Load(mem, a, n))[n := mem[(a + n) % SPACE]]
  {
  }

  lemma StoreTwo(mem: seq<byte>, a: nat, d: seq<byte>, at: nat, k: nat, mem': seq<byte>)
    requires |mem| == SPACE && at + k + 2 <= |d|
    requires mem' == Store(mem, a, d[at..at + k])[(a + k) % SPACE := d[at + k]][(a + k + 1) % SPACE := d[at + k + 1]]
    ensures mem' == Store(mem, a, d[at..at + k + 2])
  {
    var bs := d[at..at + k + 2];
    assert bs[..k + 1] == d[at..at + k] + [d[at + k]];
    assert bs[..k + 1][..k] == d[at..at + k];
  }

  /** The word port is selected, and reads and writes RAM with auto-increment. */
  predicate WordPort(h: Hw) { h.index == LMSBAI_INDEX && h.lmci % 2 == 1 && !RomSelected(h.lmci) }

  lemma LoadTwo(d: seq<byte>, at: nat, mem: seq<byte>, a: nat, n: nat)
    requires |mem| == SPACE && at + n + 2 <= |d|
    ensures Splice(d, at, Load(mem, a, n + 2))
         == Splice(d, at, Load(mem, a, n))[at + n := mem[(a + n) % SPACE]][at + n + 1 := mem[(a + n + 1) % SPACE]]
  {
  }

  /** The two parts of an address make the address. */
  lemma HighLow(was: nat, addr: nat)
    requires was < 0x100_0000
    ensures var mid := was / 0x1_0000 * 0x1_0000 + addr % 0x1_0000;
            addr / 0x1_0000 % 256 * 0x1_0000 + mid % 0x1_0000 == addr % 0x100_0000
  {
    var q, r := addr / 0x1_0000, addr % 0x1_0000;
    LowPart(was / 0x1_0000, r);
    var p, m := q / 256, q % 256;
    assert addr == p * SPACE + (m * 0x1_0000 + r);
    Remainder(p, m * 0x1_0000 + r);
  }

  lemma LowPart(p: nat, r: nat)
    requires r < 0x1_0000
    ensures (p * 0x1_0000 + r) % 0x1_0000 == r
  {
  }

  lemma Remainder(p: nat, r: nat)
    requires r < SPACE
    ensures (p * SPACE + r) % SPACE == r
  {
  }

  lemma Onward(a: nat, k: nat)
    ensures (a % SPACE + k) % SPACE == (a + k) % SPACE
  {
  }

  /** With the word port selected and auto-increment on, reading yields the next two bytes. */
  lemma NextWord(h: Hw, a: nat)
    requires Proper(h) && h.index == 0x51 && h.lmci % 2 == 1 && h.lmci / 2 % 2 == 0
    ensures var (w, g) := Peeked(h.(address := a % 0x100_0000), 0x0020_0004);
            && w % 256 == h.ram[a % 0x100_0000] && w / 256 == h.ram[(a + 1) % 0x100_0000]
            && g == h.(address := (a + 2) % 0x100_0000)
  {
    Onward(a, 1);
    Onward(a, 2);
  }

  /** Memory and control register are as before; index and address may have moved. */
  predicate SameStore(h: Hw, g: Hw) {
    g.ram == h.ram && g.rom == h.rom && g.lmci == h.lmci && g.regs == h.regs
  }

  function Peeked(h: Hw, mnem: nat): (word, Hw)
    requires Proper(h) && InBlock(mnem)
  {
    var offset, id, index := mnem % 256, mnem / 0x1_0000, mnem / 256 % 256;
    var i := if id <= 0x3F && index < 128 then index + 128 else index;
    var g := if id <= 0x21 || id == 0x5C then h else h.(index := i);
    if id == 0x5C then In8(h, 7)
    else if offset == 4 then In16(g)
    else In8(g, if id <= 0x21 then offset else 5)
  }

  function Poked(h: Hw, mnem: nat, datum: word): Hw
    requires Proper(h) && InBlock(mnem)
  {
    var offset, id, index := mnem % 256, mnem / 0x1_0000, mnem / 256 % 256;
    var g := if id <= 0x21 || id == 0x5C then h else h.(index := index);
    if id == 0x5C then Out8(h, 7, datum % 256)
    else if offset == 4 then Out16(g, datum)
    else Out8(g, if id <= 0x21 then offset else 5, datum % 256)
  }

  /** What is written to a register is read from it. */
  lemma WriteThenRead(h: Hw, m: nat, v: word)
    requires Proper(h) && Register(m)
    ensures Proper(Poked(h, m, v)) && Peeked(Poked(h, m, v), m).0 == Narrowed(m, v)
  {
    LowPart(h.address / 0x1_0000, v);
    HighPart(v % 256, h.address % 0x1_0000);
  }

  /** And from no other: registers at different indices do not disturb each other, nor the memory,
      although two of them are parts of one address. */
  lemma OtherRegisters(h: Hw, m: nat, v: word, k: nat)
    requires Proper(h) && Register(m) && Register(k) && m / 256 % 256 != k / 256 % 256
    ensures Proper(Poked(h, m, v)) && Peeked(Poked(h, m, v), k).0 == Peeked(h, k).0
    ensures Poked(h, m, v).ram == h.ram && Poked(h, m, v).rom == h.rom
  {
    LowPart(h.address / 0x1_0000, v);
    HighPart(h.address / 0x1_0000, v);
    LowPart(v % 256, h.address % 0x1_0000);
  }

  lemma ControlRegister(h: Hw, v: byte)
    requires Proper(h)
    ensures Peeked(h, 0x004E_5305) == (h.lmci, h.(index := 0x53))
    ensures Poked(h, 0x004E_5305, v) == h.(index := 0x53, lmci := v)
  {
  }

  lemma AddressRegisters(h: Hw, v: word)
    requires Proper(h)
    ensures Poked(h, 0x0043_4304, v) == h.(index := 0x43, address := h.address / 0x1_0000 * 0x1_0000 + v)
    ensures Poked(h, 0x0044_4405, v) == h.(index := 0x44, address := v % 256 * 0x1_0000 + h.address % 0x1_0000)
  {
  }

  lemma HighPart(p: nat, r: nat)
    requires r < 0x1_0000
    ensures (p * 0x1_0000 + r) / 0x1_0000 == p
  {
  }
}
