/**
 The codec's register file behind its index and data ports: iw_peek and iw_poke for the PCODAR
 block, and the codec control of iwcodec.c.

 The device is an assumption of the model, as the driver's comments describe it: CIDXR[4:0] is
 the index and CIDXR[7:5] are mode bits; the two data format registers only take a new value
 while the mode change bit, CIDXR[6], is set; writing CSR1R clears the interrupt flags.
 */
module CodecRegisters {

  datatype Hw = Hw(
    cidxr: bv8,
    regs: seq<bv8>,          // the 32 indexed registers
    csr1: bv8                // codec status, bit 0: some interrupt
  )

  predicate Proper(h: Hw) { |h.regs| == 32 }

  const MCE: bv8 := 0x40

  // Register indices, from the mnemonics

  const CLICI := 0x00
  const CRICI := 0x01
  const CLAX1I := 0x02
  const CRAX1I := 0x03
  const CLAX2I := 0x04
  const CRAX2I := 0x05
  const CLDACI := 0x06
  const CRDACI := 0x07
  const CPDFI := 0x08
  const CFIG1I := 0x09
  const CLCI := 0x0D
  const CUPCTI := 0x0E
  const CLPCTI := 0x0F
  const CLLICI := 0x12
  const CRLICI := 0x13
  const CSR3I := 0x18
  const CMONOI := 0x1A
  const CRDFI := 0x1C
  const CURCTI := 0x1E
  const CLRCTI := 0x1F

  // The device

  function Index(h: Hw): (i: nat)
    ensures i < 32
  {
    (h.cidxr & 0x1F) as nat
  }

  predicate Writable(cidxr: bv8, i: nat) {
    (i == CPDFI || i == CRDFI) ==> cidxr & MCE != 0
  }

  function In(h: Hw, port: nat): bv8
    requires Proper(h)
  {
    if port == 0 then h.cidxr
    else if port == 1 then h.regs[Index(h)]
    else if port == 2 then h.csr1
    else 0
  }

  function Out(h: Hw, port: nat, v: bv8): Hw
    requires Proper(h)
  {
    if port == 0 then h.(cidxr := v)
    else if port == 1 then if Writable(h.cidxr, Index(h)) then h.(regs := h.regs[Index(h) := v]) else h
    else if port == 2 then h.(csr1 := 0, regs := h.regs[CSR3I := h.regs[CSR3I] & 0x8F])
    else h
  }

  /** What selecting register i makes of CIDXR. */
  function Select(cidxr: bv8, i: nat): (r: bv8)
    requires i < 32
    ensures (r & 0x1F) as nat == i && r & 0xE0 == cidxr & 0xE0
  {
    SelectKeeps(cidxr, i as bv8);
    (cidxr & 0xE0) + (i as bv8)
  }

  class Codec {
    var hw: Hw

    /** iw_peek, indexed registers of the PCODAR block. */
    method Peek(i: nat) returns (v: bv8)
      requires Proper(hw) && i < 32
      modifies this
      ensures Proper(hw) && v == old(hw).regs[i] && hw == old(hw).(cidxr := hw.cidxr)
      ensures (hw.cidxr & 0x1F) as nat == i && hw.cidxr & 0xE0 == old(hw).cidxr & 0xE0
    {
      var cidxr := In(hw, 0);
      cidxr := (cidxr & 0xE0) + (i as bv8);
      SelectKeeps(hw.cidxr, i as bv8);
      assert cidxr == Select(hw.cidxr, i);
      hw := Out(hw, 0, cidxr);
      v := In(hw, 1);
    }

    /** iw_poke, indexed registers of the PCODAR block.  The registers behave as 32 independent
        cells, the mode bits of CIDXR are kept, and only a data format register may refuse. */
    method Poke(i: nat, v: bv8)
      requires Proper(hw) && i < 32
      modifies this
      ensures Proper(hw) && (hw.cidxr & 0x1F) as nat == i && hw.cidxr & 0xE0 == old(hw).cidxr & 0xE0
      ensures hw == old(hw).(cidxr := hw.cidxr,
                             regs := if (i == 0x08 || i == 0x1C) && old(hw).cidxr & 0x40 == 0 then old(hw).regs
                                     else old(hw).regs[i := v])
    {
      var cidxr := In(hw, 0);
      cidxr := (cidxr & 0xE0) + (i as bv8);
      SelectKeeps(hw.cidxr, i as bv8);
      assert cidxr == Select(hw.cidxr, i);
      hw := Out(hw, 0, cidxr);
      hw := Out(hw, 1, v);
    }

    /** iw_enable_mode_change */
    method EnableModeChange(enable: bool)
      requires Proper(hw)
      modifies this
      ensures Proper(hw) && hw.regs == old(hw).regs && hw.csr1 == old(hw).csr1
      ensures (hw.cidxr & 0x40 != 0) == enable && hw.cidxr & 0xBF == old(hw).cidxr & 0xBF
    {
      var c := In(hw, 0);
      MceKeeps(c);
      hw := Out(hw, 0, (c & 0xBF) | (if enable then MCE else 0));
    }

    /** iw_clear_codec_interrupts: no cause of a codec interrupt is left, and no later read or write
        notices, for CSR1R is a direct register: index, mode bits, the rest of CSR3I and all other
        registers are as they were. */
    method ClearInterrupts()
      requires Proper(hw)
      modifies this
      ensures Proper(hw) && hw.csr1 & 0x01 == 0 && hw.regs[0x18] & 0x70 == 0
      ensures hw.cidxr == old(hw).cidxr && hw.regs[0x18] & 0x8F == old(hw).regs[0x18] & 0x8F
      ensures forall i | 0 <= i < 32 && i != 0x18 :: hw.regs[i] == old(hw).regs[i]
    {
      OnlyCauses(hw.regs[CSR3I]);
      hw := Out(hw, 2, 0);
    }

    /** iw_enable_playback (bit 0) and iw_enable_record (bit 1): one register changes, by the path's bit. */
    method EnablePath(playback: bool, enable: bool)
      requires Proper(hw)
      modifies this
      ensures Proper(hw) && hw.cidxr & 0xE0 == old(hw).cidxr & 0xE0 && hw.csr1 == old(hw).csr1
      ensures hw.regs == old(hw).regs[0x09 := hw.regs[0x09]] && hw.regs[0x09] & 0xFC == old(hw).regs[0x09] & 0xFC
      ensures (hw.regs[0x09] & 1 != 0) == (if playback then enable else old(hw).regs[0x09] & 1 != 0)
      ensures (hw.regs[0x09] & 2 != 0) == (if playback then old(hw).regs[0x09] & 2 != 0 else enable)
    {
      var v := Peek(CFIG1I);
      PathsIndependent(v, playback, enable);
      Poke(CFIG1I, WithPath(v, playback, enable));
    }

    /** iw_set_playback_format and iw_set_record_format: without mode change nothing happens; with it, the register
        has the format in bits 5 to 7, the stereo flag in bit 4 and the clock in bits 0 to 3. */
    method SetFormat(playback: bool, format: bv8, stereo: bool, clock: bv8)
      requires Proper(hw)
      modifies this
      ensures Proper(hw) && hw.cidxr & 0xE0 == old(hw).cidxr & 0xE0 && hw.csr1 == old(hw).csr1
      ensures var i := if playback then 0x08 else 0x1C;
              if old(hw).cidxr & 0x40 == 0 then hw.regs == old(hw).regs
              else
                var v := hw.regs[i];
                && hw.regs == old(hw).regs[i := v]
                && v >> 5 == format & 7 && (v & 0x10 != 0 <==> stereo) && v & 0x0f == clock & 0x0f
    {
      MceKeeps(hw.cidxr);
      FormatBits(format, stereo, clock);
      Poke(if playback then CPDFI else CRDFI, (format << 5) | (if stereo then 0x10 else 0x00) | (clock & 0x0f));
    }

    /** iw_get_playback_format and iw_get_record_format */
    method GetFormat(playback: bool) returns (format: bv8, stereo: bool, clock: bv8)
      requires Proper(hw)
      modifies this
      ensures Proper(hw) && hw.regs == old(hw).regs && hw.csr1 == old(hw).csr1
      ensures hw.cidxr & 0xE0 == old(hw).cidxr & 0xE0
      ensures var v := hw.regs[if playback then 0x08 else 0x1C];
              format == v >> 5 && (stereo <==> v & 0x10 != 0) && clock == v & 0x0f
    {
      var v := Peek(if playback then CPDFI else CRDFI);
      format, stereo, clock := v >> 5, v & 0x10 != 0, v & 0x0f;
    }

    /** Formats that have been set are got back, cut to their fields, if mode change was on. */
    method FormatRoundTrip(playback: bool, format: bv8, stereo: bool, clock: bv8)
      returns (format': bv8, stereo': bool, clock': bv8)
      requires Proper(hw) && hw.cidxr & 0x40 != 0
      modifies this
      ensures Proper(hw) && format' == format & 7 && stereo' == stereo && clock' == clock & 0x0f
    {
      SetFormat(playback, format, stereo, clock);
      format', stereo', clock' := GetFormat(playback);
    }

    /** pcm_open, lines 145-150: both format registers hold 16-bit little-endian stereo at 44.1 kHz, no other
        register changes, and the mode change bit is off again afterwards, whatever the index and the mode bits
        were. */
    method SetupFormats()
      requires Proper(hw)
      modifies this
      ensures Proper(hw) && hw.cidxr & 0x40 == 0 && hw.cidxr & 0xA0 == old(hw).cidxr & 0xA0
      ensures hw.regs == old(hw).regs[0x08 := 0x5B][0x1C := 0x5B] && hw.csr1 == old(hw).csr1
    {
      ModeBits(hw.cidxr);
      EnableModeChange(true);
      ModeBits(hw.cidxr);
      SetFormat(true, 2, true, 11);
      Stereo44100(hw.regs[CPDFI]);
      ModeBits(hw.cidxr);
      SetFormat(false, 2, true, 11);
      Stereo44100(hw.regs[CRDFI]);
      ModeBits(hw.cidxr);
      EnableModeChange(false);
      ModeBits(hw.cidxr);
    }
  }

  function WithPath(v: bv8, playback: bool, enable: bool): bv8 {
    (v & (if playback then 0xFE else 0xFD)) | (if !enable then 0 else if playback then 1 else 2)
  }

  /** The two paths are enabled and disabled independently. */
  lemma PathsIndependent(v: bv8, playback: bool, enable: bool)
    ensures var w := WithPath(v, playback, enable);
            && (w & 1 != 0) == (if playback then enable else v & 1 != 0)
            && (w & 2 != 0) == (if playback then v & 2 != 0 else enable)
            && w & 0xFC == v & 0xFC
  {
  }

  /** The three fields of a format register. */
  lemma FormatBits(format: bv8, stereo: bool, clock: bv8)
    ensures var v := (format << 5) | (if stereo then 0x10 else 0x00) | (clock & 0x0f);
            v >> 5 == format & 7 && (v & 0x10 != 0 <==> stereo) && v & 0x0f == clock & 0x0f
  {
  }

  lemma Stereo44100(v: bv8)
    requires v >> 5 == (2 as bv8) & 7 && v & 0x10 != 0 && v & 0x0f == (11 as bv8) & 0x0f
    ensures v == 0x5B
  {
  }

  lemma SelectKeeps(c: bv8, i: bv8)
    requires i < 32
    ensures ((c & 0xE0) + i) & 0x1F == i && ((c & 0xE0) + i) & 0xE0 == c & 0xE0
    ensures ((c & 0xE0) + i) & MCE == c & MCE
  {
  }

  lemma MceKeeps(c: bv8)
    ensures ((c & 0xBF) | MCE) & MCE != 0 && (c & 0xBF) & MCE == 0
    ensures ((c & 0xBF) | MCE) & 0xBF == c & 0xBF && ((c & 0xBF) | 0) == c & 0xBF
  {
  }

  lemma OnlyCauses(v: bv8)
    ensures (v & 0x8F) & 0x70 == 0 && (v & 0x8F) & 0x8F == v & 0x8F
  {
  }

  lemma ModeBits(c: bv8)
    ensures (c & 0xE0) & MCE == c & MCE && (c & 0xE0) & 0xA0 == c & 0xA0 && (c & 0xBF) & 0xA0 == c & 0xA0
  {
  }
}
