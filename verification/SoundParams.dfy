/**
 SOUND_SET_PARAMS and SOUND_GET_PARAMS: the sound_setup structure packed into the codec's mixer
 registers and read back, with the mixer controls of iwmixer.c.
 */
module SoundParams {
  import opened CodecRegisters

  datatype AdcSource = Line | Aux1 | Mic | Loopback | Unknown(n: int)

  // The chars of the structure are bytes; a mute or enable flag is set if it is not 0.

  datatype Channel = Channel(
    adcSource: AdcSource, adcGain: bv8, micGainEnable: bv8,
    aux1Gain: bv8, aux1Mute: bv8, aux2Gain: bv8, aux2Mute: bv8,
    lineGain: bv8, lineMute: bv8, dacAttn: bv8, dacMute: bv8)

  datatype Setup = Setup(
    left: Channel, right: Channel,
    sampleRate: nat, playbackFormat: nat, captureFormat: nat,
    ditherEnable: bv8, loopAttn: bv8, loopEnable: bv8,
    outputBoost: bv8, highpassEnable: bv8, monoGain: bv8, monoMute: bv8)

  const KHZ_44_1 := 11
  const LINEAR_16BIT_BIG_ENDIAN_STEREO := 13

  const SOURCE_LINE: bv8 := 0
  const SOURCE_AUX1: bv8 := 1
  const SOURCE_MIC: bv8 := 2
  const SOURCE_MIXER: bv8 := 3

  function Flag(b: bool): bv8 { if b then 1 else 0 }

  // The registers as the mixer setters pack them

  function Gain(gain: bv8, mute: bool, mask: bv8): bv8 { (gain & mask) | (if mute then 0x80 else 0x00) }
  function Adc(source: bv8, gain: bv8): bv8 { (gain & 0x3f) | (source << 6) }
  function Loop(mute: bool, gain: bv8): bv8 { ((gain & 0x3f) << 2) | (if mute then 0x00 else 0x01) }
  function Mono(muteInput: bool, gain: bv8, muteOutput: bool, aref: bool): bv8 {
    (if muteInput then 0x80 else 0x00) | (if muteOutput then 0x40 else 0x00) | (if aref then 0x20 else 0x00)
    | (gain & 0x0f)
  }

  function ToCodec(s: AdcSource): bv8 {
    match s
    case Mic => SOURCE_MIC
    case Loopback => SOURCE_MIXER
    case Aux1 => SOURCE_MIXER
    case _ => SOURCE_LINE
  }

  function FromCodec(source: bv8): AdcSource {
    if source == SOURCE_MIC then Mic
    else if source == SOURCE_AUX1 || source == SOURCE_MIXER then Loopback
    else Line
  }

  /** Two registers after a setter for the left and the right channel. */
  function Pair(r: seq<bv8>, left: nat, l: bv8, right: nat, v: bv8): (q: seq<bv8>)
    requires left < |r| && right < |r| && left != right
    ensures |q| == |r| && q[left] == l && q[right] == v
    ensures forall i | 0 <= i < |r| && i != left && i != right :: q[i] == r[i]
  {
    r[left := l][right := v]
  }

  /** The registers after SOUND_SET_PARAMS, in the order of the writes. */
  function Programmed(r: seq<bv8>, s: Setup): seq<bv8>
    requires |r| == 32
  {
    var source := ToCodec(s.left.adcSource);
    var r1 := Pair(r, CLCI, Loop(s.loopEnable == 0, s.loopAttn), CMONOI, Mono(true, 0, s.monoMute != 0, false));
    var r2 := Pair(r1, CLICI, Adc(source, s.left.adcGain), CRICI, Adc(source, s.right.adcGain));
    var r3 := Pair(r2, CLAX2I, Gain(s.left.aux1Gain, s.left.aux1Mute != 0, 0x1f),
                   CRAX2I, Gain(s.right.aux1Gain, s.right.aux1Mute != 0, 0x1f));
    var r4 := Pair(r3, CLAX1I, Gain(0, true, 0x1f), CRAX1I, Gain(0, true, 0x1f));
    var r5 := Pair(r4, CLLICI, Gain(s.left.lineGain, s.left.lineMute != 0, 0x1f),
                   CRLICI, Gain(s.right.lineGain, s.right.lineMute != 0, 0x1f));
    Pair(r5, CLDACI, Gain(s.left.dacAttn, s.left.dacMute != 0, 0x3f),
         CRDACI, Gain(s.right.dacAttn, s.right.dacMute != 0, 0x3f))
  }

  const MIXER: set<nat> := {CLCI, CMONOI, CLICI, CRICI, CLAX2I, CRAX2I, CLAX1I, CRAX1I, CLLICI, CRLICI, CLDACI, CRDACI}

  // What SOUND_GET_PARAMS reports of one channel

  const EMPTY := Channel(Line, 0, 0, 0, 0, 0, 0, 0, 0, 0, 0)

  function FromAdc(source: bv8, gain: bv8): Channel {
    EMPTY.(adcSource := FromCodec((source >> 6) & 0x03), adcGain := gain & 0x0f)
  }

  function WithAux(c: Channel, aux2: bv8, aux1: bv8): Channel {
    c.(aux1Gain := aux2 & 0x1f, aux1Mute := Flag(aux2 & 0x80 != 0),
       aux2Gain := aux1 & 0x1f, aux2Mute := Flag(aux1 & 0x80 != 0))
  }

  function WithLineAndDac(c: Channel, line: bv8, dac: bv8): Channel {
    c.(lineGain := line & 0x1f, lineMute := Flag(line & 0x80 != 0),
       dacAttn := dac & 0x3f, dacMute := Flag(dac & 0x80 != 0))
  }

  function ReportedChannel(source: bv8, adc: bv8, aux2: bv8, aux1: bv8, line: bv8, dac: bv8): Channel {
    WithLineAndDac(WithAux(FromAdc(source, adc), aux2, aux1), line, dac)
  }

  /** What SOUND_GET_PARAMS reports; the source is that of the right channel. */
  function Reported(r: seq<bv8>): Setup
    requires |r| == 32
  {
    Setup(ReportedChannel(r[CRICI], r[CLICI], r[CLAX2I], r[CLAX1I], r[CLLICI], r[CLDACI]),
          ReportedChannel(r[CRICI], r[CRICI], r[CRAX2I], r[CRAX1I], r[CRLICI], r[CRDACI]),
          KHZ_44_1, LINEAR_16BIT_BIG_ENDIAN_STEREO, LINEAR_16BIT_BIG_ENDIAN_STEREO,
          0, (r[CLCI] >> 2) & 0x3f, Flag(r[CLCI] & 0x01 != 0),
          0, 0, 0, Flag(r[CMONOI] & 0x40 != 0))
  }

  // What a setup comes to when it is set and got again

  function NormalSource(s: AdcSource): AdcSource {
    match s
    case Mic => Mic
    case Loopback => Loopback
    case Aux1 => Loopback
    case _ => Line
  }

  function NormalChannel(c: Channel, source: AdcSource): Channel {
    Channel(source, c.adcGain & 0x0f, 0,
            c.aux1Gain & 0x1f, Flag(c.aux1Mute != 0), 0, 1,
            c.lineGain & 0x1f, Flag(c.lineMute != 0), c.dacAttn & 0x3f, Flag(c.dacMute != 0))
  }

  /** Gains cut to their fields, flags to 0 and 1, the left source for both channels with aux1
      taken for the loopback, the aux2 mix muted, and what the card does not have set to 0. */
  function Normalised(s: Setup): Setup {
    var source := NormalSource(s.left.adcSource);
    Setup(NormalChannel(s.left, source), NormalChannel(s.right, source),
          KHZ_44_1, LINEAR_16BIT_BIG_ENDIAN_STEREO, LINEAR_16BIT_BIG_ENDIAN_STEREO,
          0, s.loopAttn & 0x3f, Flag(s.loopEnable != 0), 0, 0, 0, Flag(s.monoMute != 0))
  }

  lemma GainFields(gain: bv8, mute: bool)
    ensures Gain(gain, mute, 0x1f) & 0x1f == gain & 0x1f && Gain(gain, mute, 0x3f) & 0x3f == gain & 0x3f
    ensures (Gain(gain, mute, 0x1f) & 0x80 != 0) == mute && (Gain(gain, mute, 0x3f) & 0x80 != 0) == mute
  {
  }

  lemma AdcFields(source: bv8, gain: bv8)
    requires source < 4
    ensures Adc(source, gain) & 0x0f == gain & 0x0f && (Adc(source, gain) >> 6) & 0x03 == source
  {
  }

  lemma LoopFields(mute: bool, gain: bv8)
    ensures (Loop(mute, gain) >> 2) & 0x3f == gain & 0x3f && (Loop(mute, gain) & 0x01 != 0) == !mute
  {
  }

  lemma MonoFields(muteOutput: bool)
    ensures (Mono(true, 0, muteOutput, false) & 0x40 != 0) == muteOutput
  {
  }

  lemma SourceFields(s: AdcSource)
    ensures ToCodec(s) < 4 && FromCodec(ToCodec(s)) == NormalSource(s)
  {
  }

  lemma ChannelFields(c: Channel, s: AdcSource, other: bv8)
    ensures ReportedChannel(Adc(ToCodec(s), other), Adc(ToCodec(s), c.adcGain), Gain(c.aux1Gain, c.aux1Mute != 0, 0x1f),
                            Gain(0, true, 0x1f), Gain(c.lineGain, c.lineMute != 0, 0x1f),
                            Gain(c.dacAttn, c.dacMute != 0, 0x3f))
         == NormalChannel(c, NormalSource(s))
  {
    SourceFields(s);
    AdcFields(ToCodec(s), c.adcGain);
    AdcFields(ToCodec(s), other);
    GainFields(c.aux1Gain, c.aux1Mute != 0);
    GainFields(0, true);
    GainFields(c.lineGain, c.lineMute != 0);
    GainFields(c.dacAttn, c.dacMute != 0);
  }

  /** Registers that hold one channel of a setup, as the setters pack them. */
  ghost predicate ChannelIn(c: Channel, source: bv8, adc: bv8, aux2: bv8, aux1: bv8, line: bv8, dac: bv8) {
    && adc == Adc(source, c.adcGain) && aux2 == Gain(c.aux1Gain, c.aux1Mute != 0, 0x1f)
    && aux1 == Gain(0, true, 0x1f) && line == Gain(c.lineGain, c.lineMute != 0, 0x1f)
    && dac == Gain(c.dacAttn, c.dacMute != 0, 0x3f)
  }

  lemma PackedCells(r: seq<bv8>, s: Setup)
    requires |r| == 32
    ensures var p := Programmed(r, s);
            var source := ToCodec(s.left.adcSource);
            && |p| == 32
            && p[CLCI] == Loop(s.loopEnable == 0, s.loopAttn) && p[CMONOI] == Mono(true, 0, s.monoMute != 0, false)
            && ChannelIn(s.left, source, p[CLICI], p[CLAX2I], p[CLAX1I], p[CLLICI], p[CLDACI])
            && ChannelIn(s.right, source, p[CRICI], p[CRAX2I], p[CRAX1I], p[CRLICI], p[CRDACI])
            && forall i | 0 <= i < 32 && i !in MIXER :: p[i] == r[i]
  {
  }

  // The registers bit by bit, in the card's own numbers

  /** One channel.  The input selector has the microphone as 2 and the mixer as 3; the card's aux1 input, which is the
      synth, is muted, and its aux2 input is what the setup calls aux1. */
  ghost predicate ChannelBits(c: Channel, source: AdcSource, adc: bv8, aux1: bv8, aux2: bv8, dac: bv8, line: bv8) {
    && adc >> 6 == (if source.Mic? then 2 else if source.Loopback? || source.Aux1? then 3 else 0)
    && adc & 0x3f == c.adcGain & 0x3f
    && aux1 == 0x80
    && aux2 & 0x1f == c.aux1Gain & 0x1f && aux2 & 0x60 == 0 && (aux2 & 0x80 != 0 <==> c.aux1Mute != 0)
    && dac & 0x3f == c.dacAttn & 0x3f && dac & 0x40 == 0 && (dac & 0x80 != 0 <==> c.dacMute != 0)
    && line & 0x1f == c.lineGain & 0x1f && line & 0x60 == 0 && (line & 0x80 != 0 <==> c.lineMute != 0)
  }

  /** All of q: both channels with the left one's source; the loopback, shifted left, with an enable flag in bit 0; the
      mono input muted, the mono output muted by bit 6; and the rest as in r. */
  ghost predicate SetupBits(q: seq<bv8>, r: seq<bv8>, s: Setup) {
    && |q| == |r| == 32
    && ChannelBits(s.left, s.left.adcSource, q[0x00], q[0x02], q[0x04], q[0x06], q[0x12])
    && ChannelBits(s.right, s.left.adcSource, q[0x01], q[0x03], q[0x05], q[0x07], q[0x13])
    && q[0x0D] >> 2 == s.loopAttn & 0x3f && q[0x0D] & 0x02 == 0 && (q[0x0D] & 0x01 != 0 <==> s.loopEnable != 0)
    && q[0x1A] & 0xBF == 0x80 && (q[0x1A] & 0x40 != 0 <==> s.monoMute != 0)
    && forall i | 8 <= i < 32 && i !in {0x0D, 0x12, 0x13, 0x1A} :: q[i] == r[i]
  }

  lemma ChannelHas(c: Channel, s: AdcSource, adc: bv8, aux1: bv8, aux2: bv8, dac: bv8, line: bv8)
    requires ChannelIn(c, ToCodec(s), adc, aux2, aux1, line, dac)
    ensures ChannelBits(c, s, adc, aux1, aux2, dac, line)
  {
    SelectorBits(ToCodec(s), c.adcGain);
    LevelBits(c.aux1Gain, c.aux1Mute != 0);
    LevelBits(0, true);
    LevelBits(c.lineGain, c.lineMute != 0);
    LevelBits(c.dacAttn, c.dacMute != 0);
  }

  lemma SelectorBits(source: bv8, gain: bv8)
    requires source < 4
    ensures Adc(source, gain) >> 6 == source && Adc(source, gain) & 0x3f == gain & 0x3f
  {
  }

  lemma LevelBits(gain: bv8, mute: bool)
    ensures var v := Gain(gain, mute, 0x1f);
            v & 0x1f == gain & 0x1f && v & 0x60 == 0 && (v & 0x80 != 0 <==> mute) && (gain == 0 && mute ==> v == 0x80)
    ensures var v := Gain(gain, mute, 0x3f);
            v & 0x3f == gain & 0x3f && v & 0x40 == 0 && (v & 0x80 != 0 <==> mute)
  {
  }

  lemma OutputBits(loop: bv8, mono: bv8, s: Setup)
    requires loop == Loop(s.loopEnable == 0, s.loopAttn) && mono == Mono(true, 0, s.monoMute != 0, false)
    ensures loop >> 2 == s.loopAttn & 0x3f && loop & 0x02 == 0 && (loop & 0x01 != 0 <==> s.loopEnable != 0)
    ensures mono & 0xBF == 0x80 && (mono & 0x40 != 0 <==> s.monoMute != 0)
  {
  }

  /** SET leaves every value it was given in its own bits of the registers, and touches no other register. */
  lemma ProgrammedCells(r: seq<bv8>, s: Setup)
    requires |r| == 32
    ensures SetupBits(Programmed(r, s), r, s)
  {
    hide ToCodec, Adc, Gain, Loop, Mono, ChannelIn, ChannelBits, Programmed;
    PackedCells(r, s);
    var p := Programmed(r, s);
    ChannelHas(s.left, s.left.adcSource, p[CLICI], p[CLAX1I], p[CLAX2I], p[CLDACI], p[CLLICI]);
    ChannelHas(s.right, s.left.adcSource, p[CRICI], p[CRAX1I], p[CRAX2I], p[CRDACI], p[CRLICI]);
    OutputBits(p[CLCI], p[CMONOI], s);
  }

  /** What GET reports of one channel. */
  ghost predicate ChannelRead(c: Channel, source: bv8, adc: bv8, aux1: bv8, aux2: bv8, dac: bv8, line: bv8) {
    && c.adcSource == (if source >> 6 == 2 then Mic else if source >> 6 == 0 then Line else Loopback)
    && c.adcGain == adc & 0x0f && c.micGainEnable == 0
    && c.aux1Gain == aux2 & 0x1f && c.aux1Mute == (if aux2 & 0x80 != 0 then 1 else 0)
    && c.aux2Gain == aux1 & 0x1f && c.aux2Mute == (if aux1 & 0x80 != 0 then 1 else 0)
    && c.dacAttn == dac & 0x3f && c.dacMute == (if dac & 0x80 != 0 then 1 else 0)
    && c.lineGain == line & 0x1f && c.lineMute == (if line & 0x80 != 0 then 1 else 0)
  }

  /** What GET reports of the registers: both channels with the right one's source; 44.1 kHz, 16-bit big-endian stereo,
      and what the card does not have as 0. */
  ghost predicate SetupRead(s: Setup, r: seq<bv8>) {
    && |r| == 32
    && ChannelRead(s.left, r[0x01], r[0x00], r[0x02], r[0x04], r[0x06], r[0x12])
    && ChannelRead(s.right, r[0x01], r[0x01], r[0x03], r[0x05], r[0x07], r[0x13])
    && s.sampleRate == 11 && s.playbackFormat == 13 && s.captureFormat == 13
    && s.loopAttn == r[0x0D] >> 2 && s.loopEnable == (if r[0x0D] & 0x01 != 0 then 1 else 0)
    && s.monoMute == (if r[0x1A] & 0x40 != 0 then 1 else 0)
    && s.ditherEnable == s.outputBoost == s.highpassEnable == s.monoGain == 0
  }

  lemma ReportedBits(r: seq<bv8>)
    requires |r| == 32
    ensures SetupRead(Reported(r), r)
  {
    hide ChannelRead, ReportedChannel;
    ChannelReads(r[0x01], r[0x00], r[0x02], r[0x04], r[0x06], r[0x12]);
    ChannelReads(r[0x01], r[0x01], r[0x03], r[0x05], r[0x07], r[0x13]);
  }

  lemma ChannelReads(source: bv8, adc: bv8, aux1: bv8, aux2: bv8, dac: bv8, line: bv8)
    ensures ChannelRead(ReportedChannel(source, adc, aux2, aux1, line, dac), source, adc, aux1, aux2, dac, line)
  {
    TopBits(source);
  }

  lemma TopBits(v: bv8)
    ensures (v >> 6) & 0x03 == v >> 6 && v >> 6 < 4
  {
  }

  lemma ChannelReported(c: Channel, s: AdcSource, other: bv8, adc: bv8, aux2: bv8, aux1: bv8, line: bv8, dac: bv8)
    requires ChannelIn(c, ToCodec(s), adc, aux2, aux1, line, dac)
    ensures ReportedChannel(Adc(ToCodec(s), other), adc, aux2, aux1, line, dac) == NormalChannel(c, NormalSource(s))
  {
    ChannelFields(c, s, other);
  }

  lemma OutputReported(s: Setup, loop: bv8, mono: bv8)
    requires loop == Loop(s.loopEnable == 0, s.loopAttn) && mono == Mono(true, 0, s.monoMute != 0, false)
    ensures (loop >> 2) & 0x3f == s.loopAttn & 0x3f && Flag(loop & 0x01 != 0) == Flag(s.loopEnable != 0)
    ensures Flag(mono & 0x40 != 0) == Flag(s.monoMute != 0)
  {
    LoopFields(s.loopEnable == 0, s.loopAttn);
    MonoFields(s.monoMute != 0);
  }

  /** GET after SET yields the normal form of the setup, whatever the registers held before. */
  lemma SetThenGet(r: seq<bv8>, s: Setup)
    requires |r| == 32
    ensures |Programmed(r, s)| == 32 && Reported(Programmed(r, s)) == Normalised(s)
  {
    PackedCells(r, s);
    var p, source, gain := Programmed(r, s), s.left.adcSource, s.right.adcGain;
    ChannelReported(s.left, source, gain, p[CLICI], p[CLAX2I], p[CLAX1I], p[CLLICI], p[CLDACI]);
    ChannelReported(s.right, source, gain, p[CRICI], p[CRAX2I], p[CRAX1I], p[CRLICI], p[CRDACI]);
    OutputReported(s, p[CLCI], p[CMONOI]);
    Assembled(p, s, NormalChannel(s.left, NormalSource(source)), NormalChannel(s.right, NormalSource(source)));
  }

  lemma Assembled(p: seq<bv8>, s: Setup, left: Channel, right: Channel)
    requires |p| == 32
    requires left == NormalChannel(s.left, NormalSource(s.left.adcSource))
    requires right == NormalChannel(s.right, NormalSource(s.left.adcSource))
    requires ReportedChannel(p[CRICI], p[CLICI], p[CLAX2I], p[CLAX1I], p[CLLICI], p[CLDACI]) == left
    requires ReportedChannel(p[CRICI], p[CRICI], p[CRAX2I], p[CRAX1I], p[CRLICI], p[CRDACI]) == right
    requires (p[CLCI] >> 2) & 0x3f == s.loopAttn & 0x3f && Flag(p[CLCI] & 0x01 != 0) == Flag(s.loopEnable != 0)
    requires Flag(p[CMONOI] & 0x40 != 0) == Flag(s.monoMute != 0)
    ensures Reported(p) == Normalised(s)
  {
  }

  /** The normal form is normal: setting what was got changes nothing any more. */
  lemma NormalisedTwice(s: Setup)
    ensures Normalised(Normalised(s)) == Normalised(s)
  {
  }

  /** Once a setup has been set, getting it and setting that again leaves every report as it is. */
  lemma SetGetSetGet(r: seq<bv8>, s: Setup)
    requires |r| == 32
    ensures var first := Programmed(r, s);
            |first| == 32 && |Programmed(first, Reported(first))| == 32
            && Reported(Programmed(first, Reported(first))) == Reported(first)
  {
    SetThenGet(r, s);
    var first := Programmed(r, s);
    SetThenGet(first, Reported(first));
    NormalisedTwice(s);
  }

  // The code

  /** Where a control leaves the codec: some registers changed, mode bits and status kept. */
  ghost predicate Leaves(now: Hw, was: Hw, regs: seq<bv8>) {
    now.regs == regs && now.cidxr & 0xE0 == was.cidxr & 0xE0 && now.csr1 == was.csr1
  }

  predicate InMixer(i: nat) { i < 32 && i != CPDFI && i != CRDFI }

  class Mixer {
    const codec: Codec

    constructor (codec: Codec)
      ensures this.codec == codec
    {
      this.codec := codec;
    }

    /** The two pokes of a setter. */
    method SetPair(left: nat, l: bv8, right: nat, v: bv8)
      requires Proper(codec.hw) && InMixer(left) && InMixer(right) && left != right
      modifies codec
      ensures Proper(codec.hw) && Leaves(codec.hw, old(codec.hw), Pair(old(codec.hw.regs), left, l, right, v))
    {
      codec.Poke(left, l);
      codec.Poke(right, v);
    }

    /** The two peeks of a getter. */
    method GetPair(left: nat, right: nat) returns (l: bv8, v: bv8)
      requires Proper(codec.hw) && left < 32 && right < 32
      modifies codec
      ensures Proper(codec.hw) && Leaves(codec.hw, old(codec.hw), old(codec.hw.regs))
      ensures l == codec.hw.regs[left] && v == codec.hw.regs[right]
    {
      l := codec.Peek(left);
      v := codec.Peek(right);
    }

    /** iw_set_aux1_gain, iw_set_aux2_gain, iw_set_line_gain and, with another mask, iw_set_dac_gain */
    method SetGain(left: nat, right: nat, mask: bv8, muteLeft: bool, gainLeft: bv8, muteRight: bool, gainRight: bv8)
      requires Proper(codec.hw) && InMixer(left) && InMixer(right) && left != right
      modifies codec
      ensures Proper(codec.hw)
      ensures Leaves(codec.hw, old(codec.hw), Pair(old(codec.hw.regs), left, Gain(gainLeft, muteLeft, mask),
                                                 right, Gain(gainRight, muteRight, mask)))
    {
      SetPair(left, (gainLeft & mask) | (if muteLeft then 0x80 else 0x00),
              right, (gainRight & mask) | (if muteRight then 0x80 else 0x00));
    }

    /** iw_get_aux1_gain, iw_get_aux2_gain, iw_get_line_gain and iw_get_dac_gain */
    method GetGain(left: nat, right: nat, mask: bv8)
      returns (mutedLeft: bool, gainLeft: bv8, mutedRight: bool, gainRight: bv8)
      requires Proper(codec.hw) && left < 32 && right < 32
      modifies codec
      ensures Proper(codec.hw) && Leaves(codec.hw, old(codec.hw), old(codec.hw.regs))
      ensures gainLeft == codec.hw.regs[left] & mask && mutedLeft == (codec.hw.regs[left] & 0x80 != 0)
      ensures gainRight == codec.hw.regs[right] & mask && mutedRight == (codec.hw.regs[right] & 0x80 != 0)
    {
      var l, r := GetPair(left, right);
      mutedLeft, gainLeft, mutedRight, gainRight := l & 0x80 != 0, l & mask, r & 0x80 != 0, r & mask;
    }

    /** iw_set_loopback_gain, and iw_set_mono_gain with the input muted */
    method SetOutputs(loopMute: bool, loopGain: bv8, monoMute: bool)
      requires Proper(codec.hw)
      modifies codec
      ensures Proper(codec.hw)
      ensures Leaves(codec.hw, old(codec.hw),
                   Pair(old(codec.hw.regs), CLCI, Loop(loopMute, loopGain), CMONOI, Mono(true, 0, monoMute, false)))
    {
      // the loopback gain is shifted left, and its mute bit is reversed
      SetPair(CLCI, ((loopGain & 0x3f) << 2) | (if loopMute then 0x00 else 0x01),
              CMONOI, Mono(true, 0, monoMute, false));
    }

    /** iw_set_adc_source */
    method SetAdcSource(sourceLeft: bv8, gainLeft: bv8, sourceRight: bv8, gainRight: bv8)
      requires Proper(codec.hw)
      modifies codec
      ensures Proper(codec.hw)
      ensures Leaves(codec.hw, old(codec.hw),
                   Pair(old(codec.hw.regs), CLICI, Adc(sourceLeft, gainLeft), CRICI, Adc(sourceRight, gainRight)))
    {
      SetPair(CLICI, (gainLeft & 0x3f) | (sourceLeft << 6), CRICI, (gainRight & 0x3f) | (sourceRight << 6));
    }

    /** The setters that SOUND_SET_PARAMS calls, in their order. */
    method SetAll(s: Setup)
      requires Proper(codec.hw)
      modifies codec
      ensures Proper(codec.hw) && Leaves(codec.hw, old(codec.hw), Programmed(old(codec.hw.regs), s))
    {
      var source := ToCodec(s.left.adcSource);
      SetOutputs(s.loopEnable == 0, s.loopAttn, s.monoMute != 0);
      SetAdcSource(source, s.left.adcGain, source, s.right.adcGain);
      SetGain(CLAX2I, CRAX2I, 0x1f, s.left.aux1Mute != 0, s.left.aux1Gain, s.right.aux1Mute != 0, s.right.aux1Gain);
      SetGain(CLAX1I, CRAX1I, 0x1f, true, 0, true, 0);
      SetGain(CLLICI, CRLICI, 0x1f, s.left.lineMute != 0, s.left.lineGain, s.right.lineMute != 0, s.right.lineGain);
      SetGain(CLDACI, CRDACI, 0x3f, s.left.dacMute != 0, s.left.dacAttn, s.right.dacMute != 0, s.right.dacAttn);
    }

    /** SOUND_SET_PARAMS: every bit of the mixer registers is what the setup says, mode bits, status and all other
        registers are as before. */
    method SetParams(s: Setup)
      requires Proper(codec.hw)
      modifies codec
      ensures Proper(codec.hw) && Leaves(codec.hw, old(codec.hw), Programmed(old(codec.hw.regs), s))
      ensures SetupBits(codec.hw.regs, old(codec.hw.regs), s)
    {
      hide SetupBits, Programmed;
      ProgrammedCells(codec.hw.regs, s);
      SetAll(s);
    }

    /** The ADC part of SOUND_GET_PARAMS: both sources go to one variable, the right one last. */
    method GetSource() returns (left: Channel, right: Channel)
      requires Proper(codec.hw)
      modifies codec
      ensures Proper(codec.hw) && Leaves(codec.hw, old(codec.hw), old(codec.hw.regs))
      ensures left == FromAdc(codec.hw.regs[CRICI], codec.hw.regs[CLICI])
      ensures right == FromAdc(codec.hw.regs[CRICI], codec.hw.regs[CRICI])
    {
      var l, r := GetPair(CLICI, CRICI);
      var source := (l >> 6) & 0x03;
      source := (r >> 6) & 0x03;
      left := EMPTY.(adcSource := FromCodec(source), adcGain := l & 0x0f);
      right := EMPTY.(adcSource := FromCodec(source), adcGain := r & 0x0f);
    }

    /** The line and DAC part of SOUND_GET_PARAMS. */
    method GetLineAndDac(c: Channel, d: Channel) returns (left: Channel, right: Channel)
      requires Proper(codec.hw)
      modifies codec
      ensures Proper(codec.hw) && Leaves(codec.hw, old(codec.hw), old(codec.hw.regs))
      ensures left == WithLineAndDac(c, codec.hw.regs[CLLICI], codec.hw.regs[CLDACI])
      ensures right == WithLineAndDac(d, codec.hw.regs[CRLICI], codec.hw.regs[CRDACI])
    {
      var lineL, lineLGain, lineR, lineRGain := GetGain(CLLICI, CRLICI, 0x1f);
      var dacL, dacLGain, dacR, dacRGain := GetGain(CLDACI, CRDACI, 0x3f);
      left := c.(lineGain := lineLGain, lineMute := Flag(lineL), dacAttn := dacLGain, dacMute := Flag(dacL));
      right := d.(lineGain := lineRGain, lineMute := Flag(lineR), dacAttn := dacRGain, dacMute := Flag(dacR));
    }

    /** The aux1 and aux2 part of SOUND_GET_PARAMS: the two change places. */
    method GetAux(c: Channel, d: Channel) returns (left: Channel, right: Channel)
      requires Proper(codec.hw)
      modifies codec
      ensures Proper(codec.hw) && Leaves(codec.hw, old(codec.hw), old(codec.hw.regs))
      ensures left == WithAux(c, codec.hw.regs[CLAX2I], codec.hw.regs[CLAX1I])
      ensures right == WithAux(d, codec.hw.regs[CRAX2I], codec.hw.regs[CRAX1I])
    {
      var aux2L, aux2LGain, aux2R, aux2RGain := GetGain(CLAX2I, CRAX2I, 0x1f);
      var aux1L, aux1LGain, aux1R, aux1RGain := GetGain(CLAX1I, CRAX1I, 0x1f);
      left := c.(aux1Gain := aux2LGain, aux1Mute := Flag(aux2L), aux2Gain := aux1LGain, aux2Mute := Flag(aux1L));
      right := d.(aux1Gain := aux2RGain, aux1Mute := Flag(aux2R), aux2Gain := aux1RGain, aux2Mute := Flag(aux1R));
    }

    /** SOUND_GET_PARAMS */
    method GetParams() returns (s: Setup)
      requires Proper(codec.hw)
      modifies codec
      ensures Proper(codec.hw) && Leaves(codec.hw, old(codec.hw), old(codec.hw.regs))
      ensures s == Reported(codec.hw.regs) && SetupRead(s, codec.hw.regs)
    {
      hide SetupRead;
      ReportedBits(codec.hw.regs);
      var loop, mono := GetPair(CLCI, CMONOI);
      var left, right := GetSource();
      left, right := GetAux(left, right);
      left, right := GetLineAndDac(left, right);
      s := Setup(left, right, KHZ_44_1, LINEAR_16BIT_BIG_ENDIAN_STEREO, LINEAR_16BIT_BIG_ENDIAN_STEREO,
                 0, (loop >> 2) & 0x3f, Flag(loop & 0x01 != 0), 0, 0, 0, Flag(mono & 0x40 != 0));
    }
  }
}
