/** iw_start_playback_dma and iw_start_record_dma: what they leave in the codec and give the DMA controller. */
module StartDma {
  import opened Bytes
  import opened BitVectors
  import opened CodecRegisters
  import opened SampleCounter
  import P = PcmPlayback
  import Q = PcmRecord

  /** A transfer as it is handed to the system's DMA services: 16-bit words, and the controller's mode byte.  Bits 2
      and 3 of it are the direction: 2 moves memory to the device, 1 the device to memory; bit 4 is auto-init, to
      begin again when the end is reached. */
  datatype Transfer = Transfer(physical: int, words: nat, mode: bv8)

  /** (2*wr_size)/2 as a size_t: the ring in 16-bit words. */
  function Words(size: nat): nat { 2 * size % WORD / 2 }

  lemma WordsOf(size: nat)
    requires size < WORD
    ensures 2 * Words(size) == 2 * size <==> size < WORD / 2
  {
  }

  class Card {
    const codec: Codec
    var lowPhys: int
    var lowMem: int

    constructor (codec: Codec, lowPhys: int, lowMem: int)
      ensures this.codec == codec && this.lowPhys == lowPhys && this.lowMem == lowMem
    {
      this.codec, this.lowPhys, this.lowMem := codec, lowPhys, lowMem;
    }

    method PokePair(first: nat, v: bv8, second: nat, w: bv8)
      requires Proper(codec.hw) && {first, second} <= {0x0E, 0x0F, 0x1E, 0x1F} && first != second
      modifies codec
      ensures Proper(codec.hw) && codec.hw.cidxr & 0xE0 == old(codec.hw.cidxr) & 0xE0
              && codec.hw.csr1 == old(codec.hw.csr1)
      ensures codec.hw.regs == old(codec.hw.regs)[first := v][second := w]
    {
      codec.Poke(first, v);
      codec.Poke(second, w);
    }

    /** A 16-bit count in two registers, low byte first. */
    method PokeCount(high: nat, low: nat, count: nat)
      requires Proper(codec.hw) && {high, low} <= {0x0E, 0x0F, 0x1E, 0x1F} && high != low && count < 0x1_0000
      modifies codec
      ensures Proper(codec.hw) && codec.hw.cidxr & 0xE0 == old(codec.hw.cidxr) & 0xE0
              && codec.hw.csr1 == old(codec.hw.csr1)
      ensures codec.hw.regs == old(codec.hw.regs)[low := codec.hw.regs[low]][high := codec.hw.regs[high]]
      ensures codec.hw.regs[high] as int * 256 + codec.hw.regs[low] as int == count
    {
      var lowByte: byte, highByte: byte := count % 256, count / 256;
      Holds(lowByte);
      Holds(highByte);
      PokePair(low, lowByte as bv8, high, highByte as bv8);
    }

    /** The counter is loaded so that it is exceeded once per half, exactly for the sizes it can count. */
    method LoadCounter(high: nat, low: nat, size: nat)
      requires Proper(codec.hw) && {high, low} <= {0x0E, 0x0F, 0x1E, 0x1F} && high != low && size < 0x1_0000_0000
      modifies codec
      ensures Proper(codec.hw) && codec.hw.cidxr & 0xE0 == old(codec.hw.cidxr) & 0xE0
              && codec.hw.csr1 == old(codec.hw.csr1)
      ensures codec.hw.regs == old(codec.hw.regs)[low := codec.hw.regs[low]][high := codec.hw.regs[high]]
      ensures codec.hw.regs[high] as int * 256 + codec.hw.regs[low] as int
           == (size / 4 + 0xFFFF_FFFF) % 0x1_0000_0000 % 0x1_0000
      ensures 4 * (codec.hw.regs[high] as int * 256 + codec.hw.regs[low] as int + 1) == size
              <==> size % 4 == 0 && 4 <= size <= 0x4_0000
    {
      CountedHalf(size);
      PokeCount(high, low, Loaded(size));
    }

    /** iw_start_playback_dma: interrupts cleared, the playback path on and the record path as it was.  The codec's
        counter, which must be exceeded, counts one half exactly for the sizes it can count; and the DMA controller
        is told to move memory to the device, around and around, from wr_1 on, the whole ring if twice its half is a
        32-bit number. */
    method StartPlayback(wr1: int, wrSize: nat) returns (dma: Transfer)
      requires Proper(codec.hw) && wrSize < 0x1_0000_0000
      modifies codec
      ensures Proper(codec.hw) && codec.hw.cidxr & 0xE0 == old(codec.hw.cidxr) & 0xE0 && codec.hw.csr1 & 0x01 == 0
      ensures 4 * (codec.hw.regs[0x0E] as int * 256 + codec.hw.regs[0x0F] as int + 1) == wrSize
              <==> wrSize % 4 == 0 && 4 <= wrSize <= 0x4_0000
      ensures codec.hw.regs[0x09] & 1 != 0 && codec.hw.regs[0x09] & 0xFE == old(codec.hw.regs[0x09]) & 0xFE
      ensures codec.hw.regs[0x18] & 0x70 == 0 && codec.hw.regs[0x18] & 0x8F == old(codec.hw.regs[0x18]) & 0x8F
      ensures forall i | 0 <= i < 32 && i !in {0x09, 0x0E, 0x0F, 0x18} :: codec.hw.regs[i] == old(codec.hw.regs[i])
      ensures dma.physical - lowPhys == wr1 - lowMem && (2 * dma.words == 2 * wrSize <==> wrSize < 0x8000_0000)
      ensures (dma.mode >> 2) & 3 == 2 && dma.mode & 0x10 != 0
    {
      hide Loaded, Words;
      ghost var config := codec.hw.regs[0x09];
      codec.EnablePath(true, false);
      codec.ClearInterrupts();
      LoadCounter(CUPCTI, CLPCTI, wrSize);
      WordsOf(wrSize);
      dma := Transfer(lowPhys + (wr1 - lowMem), Words(wrSize), 0x58);
      codec.EnablePath(true, true);
      OtherPath(config, codec.hw.regs[0x09]);
    }

    /** iw_start_record_dma: the same for the record path, except that the direction is from the device to memory, and
        that interrupts stay as they are, for playback is already running. */
    method StartRecord(rd1: int, rdSize: nat) returns (dma: Transfer)
      requires Proper(codec.hw) && rdSize < 0x1_0000_0000
      modifies codec
      ensures Proper(codec.hw) && codec.hw.cidxr & 0xE0 == old(codec.hw.cidxr) & 0xE0
              && codec.hw.csr1 == old(codec.hw.csr1)
      ensures 4 * (codec.hw.regs[0x1E] as int * 256 + codec.hw.regs[0x1F] as int + 1) == rdSize
              <==> rdSize % 4 == 0 && 4 <= rdSize <= 0x4_0000
      ensures codec.hw.regs[0x09] & 2 != 0 && codec.hw.regs[0x09] & 0xFD == old(codec.hw.regs[0x09]) & 0xFD
      ensures forall i | 0 <= i < 32 && i !in {0x09, 0x1E, 0x1F} :: codec.hw.regs[i] == old(codec.hw.regs[i])
      ensures dma.physical - lowPhys == rd1 - lowMem && 2 * dma.words == 2 * rdSize
      ensures (dma.mode >> 2) & 3 == 1 && dma.mode & 0x10 != 0
    {
      hide Loaded;
      ghost var config := codec.hw.regs[0x09];
      codec.EnablePath(false, false);
      LoadCounter(CURCTI, CLRCTI, rdSize);
      dma := Transfer(lowPhys + (rd1 - lowMem), rdSize, 0x54);
      codec.EnablePath(false, true);
      OtherPath(config, codec.hw.regs[0x09]);
    }

    /** pcm_open, lines 153-154, on the rings that it has laid out in the low memory: the playback transfer reads the
        two halves that writers fill, and the record transfer stores into the two halves that readers read, each from
        where its model has the DMA start, to the end of the second half and around again; and each counter counts
        one half. */
    method StartBoth(playback: P.Device, record: Q.Device) returns (upload: Transfer, download: Transfer)
      requires Proper(codec.hw) && playback.Valid() && record.Valid()
      requires playback.dma == playback.wr1 && record.dma == record.rd1
      requires playback.wrSize % 4 == 0 && playback.wrSize <= 0x4_0000
      requires record.rdSize % 4 == 0 && record.rdSize <= 0x4_0000
      modifies codec
      ensures Proper(codec.hw) && playback.Valid() && record.Valid()
      ensures (upload.mode >> 2) & 3 == 2 && upload.mode & 0x10 != 0
      ensures upload.physical == lowPhys + playback.dma
              && upload.physical + 2 * upload.words == lowPhys + playback.wr2 + playback.wrSize
      ensures (download.mode >> 2) & 3 == 1 && download.mode & 0x10 != 0
      ensures download.physical == lowPhys + record.dma
              && download.physical + 2 * download.words == lowPhys + record.rd2 + record.rdSize
      ensures 4 * (codec.hw.regs[0x0E] as int * 256 + codec.hw.regs[0x0F] as int + 1) == playback.wrSize
      ensures 4 * (codec.hw.regs[0x1E] as int * 256 + codec.hw.regs[0x1F] as int + 1) == record.rdSize
      ensures codec.hw.regs[0x09] & 1 != 0 && codec.hw.regs[0x09] & 2 != 0
    {
      hide P.Device.Valid, Q.Device.Valid;
      Layouts(playback, record);
      upload := StartPlayback(lowMem + playback.wr1, playback.wrSize);
      ghost var config := codec.hw.regs[0x09];
      download := StartRecord(lowMem + record.rd1, record.rdSize);
      PathsOn(config, codec.hw.regs[0x09]);
    }
  }

  lemma Layouts(playback: P.Device, record: Q.Device)
    requires playback.Valid() && record.Valid()
    ensures playback.wrSize > 0 && playback.wr2 == playback.wr1 + playback.wrSize
    ensures record.rdSize > 0 && record.rd2 == record.rd1 + record.rdSize
  {
  }

  /** The count is exceeded once per half. */
  lemma CountedHalf(size: nat)
    requires size < 0x1_0000_0000
    ensures 4 * ((size / 4 + 0xFFFF_FFFF) % 0x1_0000_0000 % 0x1_0000 + 1) == size
            <==> size % 4 == 0 && 4 <= size <= 0x4_0000
  {
    PeriodIsHalf(size);
  }

  lemma OtherPath(was: bv8, now: bv8)
    ensures now & 0xFC == was & 0xFC && (now & 2 != 0 <==> was & 2 != 0) ==> now & 0xFE == was & 0xFE
    ensures now & 0xFC == was & 0xFC && (now & 1 != 0 <==> was & 1 != 0) ==> now & 0xFD == was & 0xFD
  {
  }

  lemma PathsOn(was: bv8, now: bv8)
    requires was & 1 != 0 && now & 0xFD == was & 0xFD
    ensures now & 1 != 0
  {
  }
}
