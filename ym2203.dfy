/** fmgon/YM2203.cpp, fmgon/YM2203.h: the YM2203 register layer. The OPNA
    emulator behind it is modelled as the log of what is handed to it: its
    setup, its resets and every (address, data) register write, in order.
    The small state the layer keeps next to the emulator (the SSG mixer
    byte, the tone/noise masks, which SSG channels use the envelope, the
    last envelope type and the FM timbres) is the class's state.

    Bit operations on C++ integers are written arithmetically: `x & (2^k-1)`
    is `x % 2^k` (Dafny's `%` is Euclidean, which is the two's complement
    low-bits mask also for negative `x`), `(x >> k) & m` is `(x / 2^k) % ...`
    (Euclidean division is the arithmetic shift) and `|` of bit fields that
    do not overlap is `+`. The SSG mixer byte is a `bv8`, as the source
    clears and sets bits in it. */
module Ym2203 {
  import opened Base
  import opened Notes

  const FM_CH_NUM: int := 3
  const SSG_CH_NUM: int := 3

  const TONE_MODE: int := 0
  const NOISE_MODE: int := 1
  const TONE_NOISE_MODE: int := 2

  const ADDR_SSG_TONE_FREQ_L: int := 0x00
  const ADDR_SSG_TONE_FREQ_H: int := 0x01
  const ADDR_SSG_MIXING: int := 0x07
  const ADDR_SSG_LEVEL_ENV: int := 0x08
  const ADDR_SSG_ENV_FREQ_L: int := 0x0B
  const ADDR_SSG_ENV_FREQ_H: int := 0x0C
  const ADDR_SSG_ENV_TYPE: int := 0x0D

  const ADDR_FM_KEYON: int := 0x28
  const ADDR_FM_DETUNE_MULTI: int := 0x30
  const ADDR_FM_TL: int := 0x40
  const ADDR_FM_AR_KEYSCALE: int := 0x50
  const ADDR_FM_DR: int := 0x60
  const ADDR_FM_SR: int := 0x70
  const ADDR_FM_SL_RR: int := 0x80
  const ADDR_FM_FREQ_L: int := 0xA0
  const ADDR_FM_FREQ_H: int := 0xA4
  const ADDR_FM_FB_ALGORITHM: int := 0xB0

  /** F-numbers of C..B for the FM channels, and tone periods of C..B for
      the SSG channels at octave 0. */
  const FM_PITCH_TABLE: seq<int> := [617, 654, 693, 734, 778, 824, 873, 925, 980, 1038, 1100, 1165]
  const SSG_PITCH_TABLE: seq<int> := [7645, 7215, 6810, 6428, 6067, 5727, 5405, 5102, 4816, 4545, 4290, 4050]

  /** Register offset of operators 1..4 (OPERATOR_1..4 are 0..3). */
  const OP_OFFSET: seq<int> := [0x00, 0x08, 0x04, 0x0C]

  /** What the emulator is handed: OPNA::Init, OPNA::Reset, OPNA::SetReg. */
  datatype ChipEvent = Setup(clock: int, rate: int) | Reset | Write(addr: int, data: int)

  // ---------------------------------------------------------------------------
  // Pitch

  /** fm_set_pitch: block and the high three F-number bits, then the low
      eight F-number bits. */
  function FmPitchWrites(ch: int, octave: int, key: int, adj: int): (w: seq<ChipEvent>)
    requires 0 <= ch < FM_CH_NUM && 0 <= key < KEY_NUM
    ensures |w| == 2 && w[0].Write? && w[1].Write?
    ensures w[0].addr == ADDR_FM_FREQ_H + ch && w[1].addr == ADDR_FM_FREQ_L + ch
    ensures 0 <= w[0].data < 64 && 0 <= w[1].data < 256
  {
    var f := FM_PITCH_TABLE[key] + adj;
    [Write(ADDR_FM_FREQ_H + ch, (octave % 8) * 8 + (f / 256) % 8), Write(ADDR_FM_FREQ_L + ch, f % 256)]
  }

  /** The chip reads the block and the 11-bit F-number back from the two
      registers: the block is the octave's low three bits and the F-number
      is the adjusted table value modulo 2048, exactly that value when it
      fits. */
  lemma FmPitchDecodes(ch: int, octave: int, key: int, adj: int)
    requires 0 <= ch < FM_CH_NUM && 0 <= key < KEY_NUM
    ensures var w := FmPitchWrites(ch, octave, key, adj);
            w[0].data / 8 == octave % 8
            && (w[0].data % 8) * 256 + w[1].data == (FM_PITCH_TABLE[key] + adj) % 2048
    ensures 0 <= FM_PITCH_TABLE[key] + adj < 2048 && 0 <= octave < 8 ==>
              var w := FmPitchWrites(ch, octave, key, adj);
              w[0].data / 8 == octave && (w[0].data % 8) * 256 + w[1].data == FM_PITCH_TABLE[key] + adj
  {
    var f := FM_PITCH_TABLE[key] + adj;
    var q := f / 256;
    assert f == q * 256 + f % 256;
    assert q == (q / 8) * 8 + q % 8;
    assert f == (q / 8) * 2048 + (q % 8) * 256 + f % 256;
    assert 0 <= (q % 8) * 256 + f % 256 < 2048;
  }

  /** The SSG tone period: the octave-0 table value, for octave o > 0
      halved o times with the last halving rounded half up. */
  function SsgPeriod(octave: int, key: int): (f: int)
    requires 0 <= key < KEY_NUM
    ensures 0 <= f <= SSG_PITCH_TABLE[key]
    ensures octave <= 0 ==> f == SSG_PITCH_TABLE[key]
    ensures octave > 0 ==> f == (SSG_PITCH_TABLE[key] / Pow2(octave - 1) + 1) / 2
  {
    var f := SSG_PITCH_TABLE[key];
    if octave > 0 then
      var g := f / Pow2(octave - 1);
      g / 2 + g % 2
    else f
  }

  /** ssg_set_pitch: the whole period to the low register, bits 8..11 to
      the high register. The adjustment is not used. */
  function SsgPitchWrites(ch: int, octave: int, key: int, adj: int): (w: seq<ChipEvent>)
    requires 0 <= ch < SSG_CH_NUM && 0 <= key < KEY_NUM
    ensures |w| == 2 && w[0].Write? && w[1].Write?
    ensures w[0].addr == ADDR_SSG_TONE_FREQ_L + ch * 2 && w[1].addr == ADDR_SSG_TONE_FREQ_H + ch * 2
    ensures w[0].data == SsgPeriod(octave, key) && 0 <= w[1].data < 16
  {
    var f := SsgPeriod(octave, key);
    [Write(ADDR_SSG_TONE_FREQ_L + ch * 2, f), Write(ADDR_SSG_TONE_FREQ_H + ch * 2, (f / 256) % 16)]
  }

  /** The 12-bit period the chip reads back (the low byte of the first
      write, the nibble of the second) is the period modulo 4096. From
      octave 1 on the period fits; at octave 0 every key but B loses its
      top bit, and C sounds with period 3549 instead of 7645. */
  lemma SsgPitchDecodes(ch: int, octave: int, key: int, adj: int, adj2: int)
    requires 0 <= ch < SSG_CH_NUM && 0 <= key < KEY_NUM
    ensures var w := SsgPitchWrites(ch, octave, key, adj);
            w[1].data * 256 + w[0].data % 256 == SsgPeriod(octave, key) % 4096
    ensures octave >= 1 ==> SsgPeriod(octave, key) < 4096
    ensures octave <= 0 ==> (SsgPeriod(octave, key) < 4096 <==> key == KEY_B)
    ensures octave == 0 && key == KEY_C ==> SsgPeriod(octave, key) % 4096 == 3549
    ensures SsgPitchWrites(ch, octave, key, adj) == SsgPitchWrites(ch, octave, key, adj2)
  {
    var f := SsgPeriod(octave, key);
    ByteNibble(f);
    if octave >= 1 {
      HalvedQuotient(SSG_PITCH_TABLE[key], Pow2(octave - 1));
    }
  }

  /** Dividing by a power of two and halving with rounding never exceeds
      halving with rounding. */
  lemma HalvedQuotient(t: int, p: int)
    requires 0 <= t && 1 <= p
    ensures (t / p + 1) / 2 <= (t + 1) / 2
  {
    var q := t / p;
    assert t == q * p + t % p;
    assert q >= 0;
    assert q * p == q + q * (p - 1);
    assert q * (p - 1) >= 0;
  }

  /** The low byte and the next nibble of a period are the period modulo 4096. */
  lemma ByteNibble(f: int)
    requires f >= 0
    ensures ((f / 256) % 16) * 256 + f % 256 == f % 4096
  {
    var q, lo := f / 256, f % 256;
    var hi, mid := q / 16, q % 16;
    assert f == 256 * q + lo && 0 <= lo < 256;
    assert q == 16 * hi + mid && 0 <= mid < 16;
    RemainderOf(f, 4096, hi, mid * 256 + lo);
  }

  /** A value written as a multiple of m plus a part below m has that part
      as its remainder. */
  lemma RemainderOf(f: int, m: int, hi: int, rest: int)
    requires 0 < m && f == m * hi + rest && 0 <= rest < m
    ensures f % m == rest
  {
    var h := f / m;
    assert m * h + f % m == m * hi + rest;
    if h > hi {
      LowerBoundProduct(m, h - hi);
    } else if h < hi {
      LowerBoundProduct(m, hi - h);
    }
  }

  lemma LowerBoundProduct(m: int, k: int)
    requires 0 < m && 1 <= k
    ensures m * k >= m
  {
    assert m * k == m + m * (k - 1);
  }

  // ---------------------------------------------------------------------------
  // Volume

  /** The carrier operators whose total level fm_set_volume writes, in the
      order it writes them (operator 4, 2, 3, 1 as 3, 1, 2, 0). */
  function CarrierOps(algorithm: int): (ops: seq<int>)
    ensures |ops| >= 1 && ops[0] == 3
    ensures forall i :: 0 <= i < |ops| ==> 0 <= ops[i] < 4
  {
    [3] + (if algorithm >= 4 then [1] else []) + (if algorithm >= 5 then [2] else [])
        + (if algorithm == 7 then [0] else [])
  }

  /** The attenuation of a volume 0..15, in total-level steps of 0.75 dB. */
  function Attenuation(volume: int): (a: int)
    requires 0 <= volume <= 15
    ensures 0 <= a <= 45 && a % 3 == 0 && (volume == 15 <==> a == 0)
  {
    (15 - volume) * 3
  }

  /** The total-level write of one carrier: the operator's own TL plus the
      attenuation minus that operator's adjustment, in 7 bits. */
  function TlWrite(ch: int, att: int, t: Timbre, adj: seq<int>, op: int): (e: ChipEvent)
    requires 0 <= ch < FM_CH_NUM && t.Valid() && |adj| == 4 && 0 <= op < 4
    ensures e.Write? && e.addr == ADDR_FM_TL + ch + OP_OFFSET[op] && 0 <= e.data < 128
    ensures 0 <= t.tl[op] + att - adj[op] < 128 ==> e.data == t.tl[op] + att - adj[op]
  {
    Write(ADDR_FM_TL + ch + OP_OFFSET[op], (t.tl[op] + att - adj[op]) % 128)
  }

  /** The total-level writes for a list of carriers, in its order. */
  function VolumeWrites(ch: int, att: int, t: Timbre, adj: seq<int>, ops: seq<int>): (w: seq<ChipEvent>)
    requires 0 <= ch < FM_CH_NUM && t.Valid() && |adj| == 4
    requires forall i :: 0 <= i < |ops| ==> 0 <= ops[i] < 4
    ensures |w| == |ops| && forall i :: 0 <= i < |w| ==> w[i].Write?
  {
    if ops == [] then [] else [TlWrite(ch, att, t, adj, ops[0])] + VolumeWrites(ch, att, t, adj, ops[1..])
  }

  /** Write i of VolumeWrites is the write of carrier i. */
  lemma {:induction false} VolumeWritesAt(ch: int, att: int, t: Timbre, adj: seq<int>, ops: seq<int>, i: int)
    requires 0 <= ch < FM_CH_NUM && t.Valid() && |adj| == 4
    requires forall i :: 0 <= i < |ops| ==> 0 <= ops[i] < 4
    requires 0 <= i < |ops|
    ensures VolumeWrites(ch, att, t, adj, ops)[i] == TlWrite(ch, att, t, adj, ops[i])
    decreases i
  {
    if i > 0 {
      VolumeWritesAt(ch, att, t, adj, ops[1..], i - 1);
    }
  }

  /** fm_set_volume with a timbre set. */
  function FmVolumeWrites(ch: int, volume: int, t: Timbre, adj: seq<int>): seq<ChipEvent>
    requires 0 <= ch < FM_CH_NUM && 0 <= volume <= 15 && t.Valid() && |adj| == 4
  {
    VolumeWrites(ch, Attenuation(volume), t, adj, CarrierOps(t.algorithm))
  }

  /** Exactly the carriers of the algorithm get the volume: one for
      algorithms 0..3, two for 4, three for 5 and 6, all four for 7; each
      write is a TL register of this channel. */
  lemma FmVolumeCarriers(ch: int, volume: int, t: Timbre, adj: seq<int>)
    requires 0 <= ch < FM_CH_NUM && 0 <= volume <= 15 && t.Valid() && |adj| == 4 && 0 <= t.algorithm <= 7
    ensures var w := FmVolumeWrites(ch, volume, t, adj);
            |w| == [1, 1, 1, 1, 2, 3, 3, 4][t.algorithm]
            && forall i :: 0 <= i < |w| ==>
                 w[i].Write? && w[i].addr - ADDR_FM_TL - ch in OP_OFFSET && 0 <= w[i].data < 128
  {
    var ops := CarrierOps(t.algorithm);
    var w := FmVolumeWrites(ch, volume, t, adj);
    forall i | 0 <= i < |w|
      ensures w[i].Write? && w[i].addr - ADDR_FM_TL - ch in OP_OFFSET && 0 <= w[i].data < 128
    {
      VolumeWritesAt(ch, Attenuation(volume), t, adj, ops, i);
      assert w[i].addr - ADDR_FM_TL - ch == OP_OFFSET[ops[i]];
    }
  }

  /** Without adjustment and with room below 128, a louder volume writes a
      smaller total level (less attenuation) on every carrier, by 3 per
      step. */
  lemma FmVolumeLouder(ch: int, v1: int, v2: int, t: Timbre, i: int)
    requires 0 <= ch < FM_CH_NUM && 0 <= v1 <= v2 <= 15 && t.Valid()
    requires forall op :: 0 <= op < 4 ==> 0 <= t.tl[op] && t.tl[op] + 45 < 128
    requires 0 <= i < |CarrierOps(t.algorithm)|
    ensures var z := [0, 0, 0, 0];
            FmVolumeWrites(ch, v1, t, z)[i].data - FmVolumeWrites(ch, v2, t, z)[i].data == 3 * (v2 - v1)
  {
    var ops := CarrierOps(t.algorithm);
    var z := [0, 0, 0, 0];
    VolumeWritesAt(ch, Attenuation(v1), t, z, ops, i);
    VolumeWritesAt(ch, Attenuation(v2), t, z, ops, i);
  }

  /** ssg_set_volume. */
  function SsgVolumeWrites(ch: int, volume: int): (w: seq<ChipEvent>)
    requires 0 <= ch < SSG_CH_NUM && 0 <= volume <= 15
    ensures w == [Write(ADDR_SSG_LEVEL_ENV + ch, volume)]
  {
    [Write(ADDR_SSG_LEVEL_ENV + ch, volume % 16)]
  }

  /** ssg_set_envelope: envelope mode on the channel's level register, the
      type's low nibble, then the interval (a uint16_t) low byte first. */
  function SsgEnvelopeWrites(ch: int, envType: int, interval: int): (w: seq<ChipEvent>)
    requires 0 <= ch < SSG_CH_NUM
    ensures |w| == 4 && forall i :: 0 <= i < 4 ==> w[i].Write?
    ensures w[0] == Write(ADDR_SSG_LEVEL_ENV + ch, 0x10)
    ensures w[1] == Write(ADDR_SSG_ENV_TYPE, envType % 16)
    ensures w[2].addr == ADDR_SSG_ENV_FREQ_L && w[3].addr == ADDR_SSG_ENV_FREQ_H
    ensures 0 <= w[2].data < 256 && 0 <= w[3].data < 256
    ensures w[2].data + 256 * w[3].data == interval % 65536
  {
    var iv := interval % 65536;
    [Write(ADDR_SSG_LEVEL_ENV + ch, 0x10), Write(ADDR_SSG_ENV_TYPE, envType % 16),
     Write(ADDR_SSG_ENV_FREQ_L, iv % 256), Write(ADDR_SSG_ENV_FREQ_H, (iv / 256) % 256)]
  }

  // ---------------------------------------------------------------------------
  // Key on / off and the SSG mixer

  /** ssg_key_on clears the channel's mask bits in the mixer byte (a clear
      bit enables the output), ssg_key_off sets them. */
  function KeyOnMix(mix: bv8, mask: bv8): (r: bv8)
    ensures r & mask == 0 && r & !mask == mix & !mask
  {
    mix & !mask
  }

  function KeyOffMix(mix: bv8, mask: bv8): (r: bv8)
    ensures r & mask == mask && r & !mask == mix & !mask
  {
    mix | mask
  }

  /** Key off after key on restores a mixer byte whose mask bits were set,
      and key on after key off one whose mask bits were clear. */
  lemma KeyOnOffRestores(mix: bv8, mask: bv8)
    ensures mix & mask == mask ==> KeyOffMix(KeyOnMix(mix, mask), mask) == mix
    ensures mix & mask == 0 ==> KeyOnMix(KeyOffMix(mix, mask), mask) == mix
  {
  }

  /** The tone and noise mask bits of an SSG channel. */
  function ToneMask(ch: int): (m: bv8)
    requires 0 <= ch < SSG_CH_NUM
  {
    [0x01, 0x02, 0x04][ch]
  }

  function NoiseMask(ch: int): (m: bv8)
    requires 0 <= ch < SSG_CH_NUM
  {
    [0x08, 0x10, 0x20][ch]
  }

  /** ssg_set_tone_or_noise: the channel's new mask for a mode; any other
      mode keeps the old one. */
  function ModeMask(ch: int, mode: int, old_: bv8): (m: bv8)
    requires 0 <= ch < SSG_CH_NUM
    ensures mode == TONE_MODE ==> m == ToneMask(ch)
    ensures mode == NOISE_MODE ==> m == NoiseMask(ch)
    ensures mode == TONE_NOISE_MODE ==> m == ToneMask(ch) | NoiseMask(ch)
    ensures mode !in {TONE_MODE, NOISE_MODE, TONE_NOISE_MODE} ==> m == old_
  {
    if mode == TONE_MODE then ToneMask(ch)
    else if mode == NOISE_MODE then NoiseMask(ch)
    else if mode == TONE_NOISE_MODE then ToneMask(ch) + NoiseMask(ch)
    else old_
  }

  /** Every mask a mode can give lies inside the 0x3F that init writes, and
      the masks of different channels share no bit: after init, keying one
      channel on and off restores the mixer byte and leaves the other
      channels' bits alone. */
  lemma ModeMasksInsideInit(ch: int, ch2: int, mode: int, mode2: int, mix: bv8)
    requires 0 <= ch < SSG_CH_NUM && 0 <= ch2 < SSG_CH_NUM && ch != ch2
    requires mode in {TONE_MODE, NOISE_MODE, TONE_NOISE_MODE} && mode2 in {TONE_MODE, NOISE_MODE, TONE_NOISE_MODE}
    ensures var m := ModeMask(ch, mode, 0);
            0x3F & m == m && m != 0 && KeyOffMix(KeyOnMix(0x3F, m), m) == 0x3F
    ensures ModeMask(ch, mode, 0) & ModeMask(ch2, mode2, 0) == 0
    ensures var m2 := ModeMask(ch2, mode2, 0);
            KeyOnMix(mix, ModeMask(ch, mode, 0)) & m2 == mix & m2
  {
    var m := ModeMask(ch, mode, 0);
    var m2 := ModeMask(ch2, mode2, 0);
    KeyOnOffRestores(0x3F, m);
    assert m & m2 == 0 by {
      assert ch == 0 || ch == 1 || ch == 2;
      assert ch2 == 0 || ch2 == 1 || ch2 == 2;
    }
  }

  /** fm_key_on: the timbre's operator mask in the high nibble and the
      channel in the low one; fm_key_off: the channel alone, every operator
      off. */
  function FmKeyOnData(ch: int, opMask: int): (d: int)
    requires 0 <= ch < FM_CH_NUM
    ensures d % 16 == ch && d / 16 == U8(opMask)
  {
    U8(opMask) * 16 + ch
  }

  // ---------------------------------------------------------------------------
  // Timbre

  /** The DT field of a signed detune: 0..3 as they are, a negative d as
      4 - d. */
  function DetuneField(d: int): (f: int)
    ensures 0 <= f < 8
  {
    (if d >= 0 then d else 4 - d) % 8
  }

  /** How the chip reads the DT field: 4..7 are 0, -1, -2, -3. */
  function DetuneOfField(f: int): int
  {
    if f < 4 then f else 4 - f
  }

  /** The encoding round-trips over the chip's detune range -3..3. */
  lemma DetuneRoundTrip(d: int)
    requires -3 <= d <= 3
    ensures DetuneOfField(DetuneField(d)) == d
  {
  }

  /** The six registers of one operator in the order they are written:
      DT/MUL, TL, KS/AR, DR, SR, SL/RR. */
  const OPERATOR_REGS: seq<int> :=
    [ADDR_FM_DETUNE_MULTI, ADDR_FM_TL, ADDR_FM_AR_KEYSCALE, ADDR_FM_DR, ADDR_FM_SR, ADDR_FM_SL_RR]

  /** One pass of the operator loop of fm_set_timbre. */
  function OperatorWrites(ch: int, t: Timbre, op: int): (w: seq<ChipEvent>)
    requires 0 <= ch < FM_CH_NUM && 0 <= op < 4 && t.Valid()
    ensures |w| == 6 && forall k :: 0 <= k < 6 ==> w[k].Write? && w[k].addr == OPERATOR_REGS[k] + ch + OP_OFFSET[op]
  {
    var off := ch + OP_OFFSET[op];
    [Write(ADDR_FM_DETUNE_MULTI + off, DetuneField(t.detune[op]) * 16 + t.multiple[op] % 16),
     Write(ADDR_FM_TL + off, t.tl[op] % 128),
     Write(ADDR_FM_AR_KEYSCALE + off, (t.keyScale[op] % 4) * 64 + t.ar[op] % 32),
     Write(ADDR_FM_DR + off, t.dr[op] % 32),
     Write(ADDR_FM_SR + off, t.sr[op] % 32),
     Write(ADDR_FM_SL_RR + off, (t.sl[op] % 16) * 16 + t.rr[op] % 16)]
  }

  /** The writes of the first n passes of the operator loop. */
  function OperatorRun(ch: int, t: Timbre, n: int): (w: seq<ChipEvent>)
    requires 0 <= ch < FM_CH_NUM && 0 <= n <= 4 && t.Valid()
    ensures |w| == 6 * n
  {
    if n == 0 then [] else OperatorRun(ch, t, n - 1) + OperatorWrites(ch, t, n - 1)
  }

  /** The FB/ALG write that ends fm_set_timbre. */
  function FeedbackWrite(ch: int, t: Timbre): (e: ChipEvent)
    ensures e.Write? && e.addr == ADDR_FM_FB_ALGORITHM + ch
  {
    Write(ADDR_FM_FB_ALGORITHM + ch, (t.feedback % 8) * 8 + t.algorithm % 8)
  }

  function TimbreWrites(ch: int, t: Timbre): (w: seq<ChipEvent>)
    requires 0 <= ch < FM_CH_NUM && t.Valid()
    ensures |w| == 25 && w[24] == FeedbackWrite(ch, t)
  {
    OperatorRun(ch, t, 4) + [FeedbackWrite(ch, t)]
  }

  /** Write 6 op + k of the operator loop is register k of operator op. */
  lemma {:induction false} OperatorRunAt(ch: int, t: Timbre, n: int, op: int, k: int)
    requires 0 <= ch < FM_CH_NUM && 0 <= op < n <= 4 && 0 <= k < 6 && t.Valid()
    ensures OperatorRun(ch, t, n)[6 * op + k] == OperatorWrites(ch, t, op)[k]
    decreases n
  {
    if op < n - 1 {
      OperatorRunAt(ch, t, n - 1, op, k);
    }
  }

  lemma TimbreWritesAt(ch: int, t: Timbre, op: int)
    requires 0 <= ch < FM_CH_NUM && 0 <= op < 4 && t.Valid()
    ensures forall k :: 0 <= k < 6 ==> TimbreWrites(ch, t)[6 * op + k] == OperatorWrites(ch, t, op)[k]
  {
    forall k | 0 <= k < 6
      ensures TimbreWrites(ch, t)[6 * op + k] == OperatorWrites(ch, t, op)[k]
    {
      OperatorRunAt(ch, t, 4, op, k);
    }
  }

  /** The 25 writes of fm_set_timbre go to 25 different registers: write
      6 op + k is register k of operator op, no two operator registers
      coincide, and none is the FB/ALG register. */
  lemma TimbreRegistersDistinct(ch: int, t: Timbre, op: int, k: int, op2: int, k2: int)
    requires 0 <= ch < FM_CH_NUM && t.Valid() && 0 <= op < 4 && 0 <= k < 6 && 0 <= op2 < 4 && 0 <= k2 < 6
    requires op != op2 || k != k2
    ensures var w := TimbreWrites(ch, t);
            w[6 * op + k] == OperatorWrites(ch, t, op)[k] && w[6 * op2 + k2] == OperatorWrites(ch, t, op2)[k2]
            && w[6 * op + k].addr != w[6 * op2 + k2].addr && w[6 * op + k].addr != w[24].addr
  {
    TimbreWritesAt(ch, t, op);
    TimbreWritesAt(ch, t, op2);
    var off, off2 := ch + OP_OFFSET[op], ch + OP_OFFSET[op2];
    assert 0 <= off < 16 && 0 <= off2 < 16;
    assert OperatorWrites(ch, t, op)[k].addr == OPERATOR_REGS[k] + off;
    assert OperatorWrites(ch, t, op2)[k2].addr == OPERATOR_REGS[k2] + off2;
    assert FeedbackWrite(ch, t).addr == ADDR_FM_FB_ALGORITHM + ch;
    RegisterBanks(k, off, k2, off2);
    if k == k2 {
      assert OP_OFFSET[op] != OP_OFFSET[op2];
    }
  }

  /** The operator registers lie in banks of 16 below the FB/ALG registers. */
  lemma RegisterBanks(k: int, off: int, k2: int, off2: int)
    requires 0 <= k < 6 && 0 <= k2 < 6 && 0 <= off < 16 && 0 <= off2 < 16
    ensures OPERATOR_REGS[k] == ADDR_FM_DETUNE_MULTI + 16 * k
    ensures OPERATOR_REGS[k] + off < ADDR_FM_FB_ALGORITHM
    ensures k != k2 ==> OPERATOR_REGS[k] + off != OPERATOR_REGS[k2] + off2
  {
    assert OPERATOR_REGS[k2] == ADDR_FM_DETUNE_MULTI + 16 * k2;
  }

  /** Reading the timbre back from the registers gives each field in the
      width the chip keeps, and the detune itself over -3..3. */
  lemma TimbreFieldsDecode(ch: int, t: Timbre, op: int)
    requires 0 <= ch < FM_CH_NUM && t.Valid() && 0 <= op < 4
    ensures forall k :: 0 <= k < 6 ==> TimbreWrites(ch, t)[6 * op + k] == OperatorWrites(ch, t, op)[k]
    ensures var o := OperatorWrites(ch, t, op);
            o[0].data / 16 == DetuneField(t.detune[op]) && o[0].data % 16 == t.multiple[op] % 16
            && o[1].data == t.tl[op] % 128
            && o[2].data / 64 == t.keyScale[op] % 4 && o[2].data % 64 == t.ar[op] % 32
            && o[3].data == t.dr[op] % 32 && o[4].data == t.sr[op] % 32
            && o[5].data / 16 == t.sl[op] % 16 && o[5].data % 16 == t.rr[op] % 16
            && (-3 <= t.detune[op] <= 3 ==> DetuneOfField(o[0].data / 16) == t.detune[op])
    ensures var fb := TimbreWrites(ch, t)[24];
            fb.data / 8 == t.feedback % 8 && fb.data % 8 == t.algorithm % 8
  {
    TimbreWritesAt(ch, t, op);
  }

  // ---------------------------------------------------------------------------
  // The register layer

  class YM2203 {
    /** The emulator, as what it has been handed. */
    var log: seq<ChipEvent>
    /** m_fm_timbres: None stands for NULL. */
    var timbres: seq<Option<Timbre>>
    var volumes: seq<int>
    var enveloped: seq<bool>
    var toneNoise: seq<bv8>
    /** m_ssg_key_on, the mixer byte. */
    var keyOn: bv8
    var envelopeType: int

    ghost predicate Valid()
      reads this
    {
      |timbres| == FM_CH_NUM && |volumes| == FM_CH_NUM && |enveloped| == SSG_CH_NUM && |toneNoise| == SSG_CH_NUM
      && forall c :: 0 <= c < FM_CH_NUM && timbres[c].Some? ==> timbres[c].value.Valid()
    }

    /** YM2203(): no timbres, no envelopes, tone masks. The mixer byte and
        the envelope type are not initialised until init and
        ssg_set_envelope, so their initial values are parameters. */
    constructor (keyOn0: bv8, envelopeType0: int)
      ensures Valid() && log == []
      ensures timbres == [None, None, None] && volumes == [0, 0, 0] && enveloped == [false, false, false]
      ensures toneNoise == [0x01, 0x02, 0x04] && keyOn == keyOn0 && envelopeType == envelopeType0
    {
      log := [];
      timbres := [None, None, None];
      volumes := [0, 0, 0];
      enveloped := [false, false, false];
      toneNoise := [0x01, 0x02, 0x04];
      keyOn := keyOn0;
      envelopeType := envelopeType0;
    }

    method WriteReg(addr: int, data: int)
      modifies this
      ensures log == old(log) + [Write(addr, data)]
      ensures timbres == old(timbres) && volumes == old(volumes) && enveloped == old(enveloped)
      ensures toneNoise == old(toneNoise) && keyOn == old(keyOn) && envelopeType == old(envelopeType)
    {
      log := log + [Write(addr, data)];
    }

    /** init: set up and reset the emulator, every SSG output off. */
    method Init(clock: int, rate: int)
      modifies this
      requires Valid()
      ensures Valid() && log == old(log) + [Setup(clock, rate), Reset, Write(ADDR_SSG_MIXING, 0x3F)]
      ensures keyOn == 0x3F
      ensures timbres == old(timbres) && volumes == old(volumes) && enveloped == old(enveloped)
      ensures toneNoise == old(toneNoise) && envelopeType == old(envelopeType)
    {
      log := log + [Setup(clock, rate), Reset];
      keyOn := 0x3F;
      WriteReg(ADDR_SSG_MIXING, 0x3F);
    }

    /** fm_key_on: nothing without a timbre (the source's assert). */
    method FmKeyOn(ch: int)
      modifies this
      requires Valid() && 0 <= ch < FM_CH_NUM
      ensures Valid()
      ensures log == old(log) + (if timbres[ch].Some? then [Write(ADDR_FM_KEYON, FmKeyOnData(ch, timbres[ch].value.opMask))] else [])
      ensures timbres == old(timbres) && volumes == old(volumes) && enveloped == old(enveloped)
      ensures toneNoise == old(toneNoise) && keyOn == old(keyOn) && envelopeType == old(envelopeType)
    {
      if timbres[ch].None? {
        return;
      }
      WriteReg(ADDR_FM_KEYON, U8(timbres[ch].value.opMask) * 16 + ch);
    }

    method FmKeyOff(ch: int)
      modifies this
      requires 0 <= ch < FM_CH_NUM
      ensures log == old(log) + [Write(ADDR_FM_KEYON, ch)]
      ensures timbres == old(timbres) && volumes == old(volumes) && enveloped == old(enveloped)
      ensures toneNoise == old(toneNoise) && keyOn == old(keyOn) && envelopeType == old(envelopeType)
    {
      WriteReg(ADDR_FM_KEYON, ch);
    }

    /** ssg_key_on: the mixer byte with the channel enabled, then, for an
        enveloped channel and a one-shot-holding type 9 or 15, the type
        again so the envelope restarts. */
    method SsgKeyOn(ch: int)
      modifies this
      requires Valid() && 0 <= ch < SSG_CH_NUM
      ensures Valid() && keyOn == KeyOnMix(old(keyOn), toneNoise[ch])
      ensures log == old(log) + [Write(ADDR_SSG_MIXING, keyOn as int)]
                     + (if enveloped[ch] && envelopeType in {9, 15} then [Write(ADDR_SSG_ENV_TYPE, envelopeType)] else [])
      ensures timbres == old(timbres) && volumes == old(volumes) && enveloped == old(enveloped)
      ensures toneNoise == old(toneNoise) && envelopeType == old(envelopeType)
    {
      keyOn := keyOn & !toneNoise[ch];
      WriteReg(ADDR_SSG_MIXING, keyOn as int);
      if enveloped[ch] && (envelopeType == 9 || envelopeType == 15) {
        WriteReg(ADDR_SSG_ENV_TYPE, envelopeType);
      }
    }

    method SsgKeyOff(ch: int)
      modifies this
      requires Valid() && 0 <= ch < SSG_CH_NUM
      ensures Valid() && keyOn == KeyOffMix(old(keyOn), toneNoise[ch])
      ensures log == old(log) + [Write(ADDR_SSG_MIXING, keyOn as int)]
      ensures timbres == old(timbres) && volumes == old(volumes) && enveloped == old(enveloped)
      ensures toneNoise == old(toneNoise) && envelopeType == old(envelopeType)
    {
      keyOn := keyOn | toneNoise[ch];
      WriteReg(ADDR_SSG_MIXING, keyOn as int);
    }

    method FmSetPitch(ch: int, octave: int, key: int, adj: int)
      modifies this
      requires 0 <= ch < FM_CH_NUM && 0 <= key < KEY_NUM
      ensures log == old(log) + FmPitchWrites(ch, octave, key, adj)
      ensures timbres == old(timbres) && volumes == old(volumes) && enveloped == old(enveloped)
      ensures toneNoise == old(toneNoise) && keyOn == old(keyOn) && envelopeType == old(envelopeType)
    {
      var f := FM_PITCH_TABLE[key] + adj;
      WriteReg(ADDR_FM_FREQ_H + ch, (octave % 8) * 8 + (f / 256) % 8);
      WriteReg(ADDR_FM_FREQ_L + ch, f % 256);
    }

    method SsgSetPitch(ch: int, octave: int, key: int, adj: int)
      modifies this
      requires 0 <= ch < SSG_CH_NUM && 0 <= key < KEY_NUM
      ensures log == old(log) + SsgPitchWrites(ch, octave, key, adj)
      ensures timbres == old(timbres) && volumes == old(volumes) && enveloped == old(enveloped)
      ensures toneNoise == old(toneNoise) && keyOn == old(keyOn) && envelopeType == old(envelopeType)
    {
      var f := SSG_PITCH_TABLE[key];
      if octave > 0 {
        f := f / Pow2(octave - 1);
        f := f / 2 + f % 2;
      }
      WriteReg(ADDR_SSG_TONE_FREQ_L + ch * 2, f);
      WriteReg(ADDR_SSG_TONE_FREQ_H + ch * 2, (f / 256) % 16);
    }

    /** fm_set_volume: nothing without a timbre (the source's assert). */
    method FmSetVolume(ch: int, volume: int, adj: seq<int>)
      modifies this
      requires Valid() && 0 <= ch < FM_CH_NUM && 0 <= volume <= 15 && |adj| == 4
      ensures Valid()
      ensures log == old(log) + (if timbres[ch].Some? then FmVolumeWrites(ch, volume, timbres[ch].value, adj) else [])
      ensures timbres == old(timbres) && volumes == old(volumes) && enveloped == old(enveloped)
      ensures toneNoise == old(toneNoise) && keyOn == old(keyOn) && envelopeType == old(envelopeType)
    {
      if timbres[ch].None? {
        return;
      }
      var t := timbres[ch].value;
      var att := Attenuation(volume);
      var ops := CarrierOps(t.algorithm);
      ghost var start := log;
      var i := 0;
      while i < |ops|
        invariant 0 <= i <= |ops|
        invariant log == start + VolumeWrites(ch, att, t, adj, ops[..i])
        invariant timbres == old(timbres) && volumes == old(volumes) && enveloped == old(enveloped)
        invariant toneNoise == old(toneNoise) && keyOn == old(keyOn) && envelopeType == old(envelopeType)
      {
        WriteTl(ch, att, t, adj, ops, i, start);
        i := i + 1;
      }
      assert ops[..i] == ops;
    }

    /** One pass of fm_set_volume's loop: the total level of carrier ops[i]. */
    method WriteTl(ch: int, att: int, t: Timbre, adj: seq<int>, ops: seq<int>, i: nat, ghost start: seq<ChipEvent>)
      modifies this
      requires 0 <= ch < FM_CH_NUM && t.Valid() && |adj| == 4 && i < |ops|
      requires forall j :: 0 <= j < |ops| ==> 0 <= ops[j] < 4
      requires log == start + VolumeWrites(ch, att, t, adj, ops[..i])
      ensures log == start + VolumeWrites(ch, att, t, adj, ops[..i + 1])
      ensures timbres == old(timbres) && volumes == old(volumes) && enveloped == old(enveloped)
      ensures toneNoise == old(toneNoise) && keyOn == old(keyOn) && envelopeType == old(envelopeType)
    {
      var op := ops[i];
      WriteReg(ADDR_FM_TL + ch + OP_OFFSET[op], (t.tl[op] + att - adj[op]) % 128);
      assert log == start + VolumeWrites(ch, att, t, adj, ops[..i]) + [TlWrite(ch, att, t, adj, op)];
      VolumeWritesSnoc(ch, att, t, adj, ops[..i], op);
      assert ops[..i + 1] == ops[..i] + [op];
    }

    /** The two-argument fm_set_volume: no adjustment. */
    method FmSetVolumeFlat(ch: int, volume: int)
      modifies this
      requires Valid() && 0 <= ch < FM_CH_NUM && 0 <= volume <= 15
      ensures Valid()
      ensures log == old(log) + (if timbres[ch].Some? then FmVolumeWrites(ch, volume, timbres[ch].value, [0, 0, 0, 0]) else [])
      ensures timbres == old(timbres) && volumes == old(volumes) && enveloped == old(enveloped)
      ensures toneNoise == old(toneNoise) && keyOn == old(keyOn) && envelopeType == old(envelopeType)
    {
      FmSetVolume(ch, volume, [0, 0, 0, 0]);
    }

    method SsgSetVolume(ch: int, volume: int)
      modifies this
      requires 0 <= ch < SSG_CH_NUM && 0 <= volume <= 15
      ensures log == old(log) + SsgVolumeWrites(ch, volume)
      ensures timbres == old(timbres) && volumes == old(volumes) && enveloped == old(enveloped)
      ensures toneNoise == old(toneNoise) && keyOn == old(keyOn) && envelopeType == old(envelopeType)
    {
      WriteReg(ADDR_SSG_LEVEL_ENV + ch, volume % 16);
    }

    /** ssg_set_envelope: also marks the channel enveloped and records the
        type. */
    method SsgSetEnvelope(ch: int, envType: int, interval: int)
      modifies this
      requires Valid() && 0 <= ch < SSG_CH_NUM
      ensures Valid() && log == old(log) + SsgEnvelopeWrites(ch, envType, interval)
      ensures enveloped == old(enveloped)[ch := true] && envelopeType == envType % 16
      ensures timbres == old(timbres) && volumes == old(volumes)
      ensures toneNoise == old(toneNoise) && keyOn == old(keyOn)
    {
      WriteReg(ADDR_SSG_LEVEL_ENV + ch, 0x10);
      enveloped := enveloped[ch := true];
      WriteReg(ADDR_SSG_ENV_TYPE, envType % 16);
      envelopeType := envType % 16;
      var iv := interval % 65536;
      WriteReg(ADDR_SSG_ENV_FREQ_L, iv % 256);
      WriteReg(ADDR_SSG_ENV_FREQ_H, (iv / 256) % 256);
    }

    /** ssg_set_tone_or_noise: no register is written. */
    method SsgSetToneOrNoise(ch: int, mode: int)
      modifies this
      requires Valid() && 0 <= ch < SSG_CH_NUM
      ensures Valid() && toneNoise == old(toneNoise)[ch := ModeMask(ch, mode, old(toneNoise)[ch])]
      ensures log == old(log) && timbres == old(timbres) && volumes == old(volumes) && enveloped == old(enveloped)
      ensures keyOn == old(keyOn) && envelopeType == old(envelopeType)
    {
      if mode == TONE_MODE {
        toneNoise := toneNoise[ch := ToneMask(ch)];
      } else if mode == NOISE_MODE {
        toneNoise := toneNoise[ch := NoiseMask(ch)];
      } else if mode == TONE_NOISE_MODE {
        toneNoise := toneNoise[ch := ToneMask(ch) + NoiseMask(ch)];
      }
    }

    /** fm_set_timbre: the operator loop, the FB/ALG write, then the timbre
        is recorded for the channel. */
    method FmSetTimbre(ch: int, t: Timbre)
      modifies this
      requires Valid() && 0 <= ch < FM_CH_NUM && t.Valid()
      ensures Valid() && log == old(log) + TimbreWrites(ch, t)
      ensures timbres == old(timbres)[ch := Some(t)]
      ensures volumes == old(volumes) && enveloped == old(enveloped)
      ensures toneNoise == old(toneNoise) && keyOn == old(keyOn) && envelopeType == old(envelopeType)
    {
      ghost var start := log;
      var op := 0;
      while op < 4
        invariant 0 <= op <= 4 && log == start + OperatorRun(ch, t, op)
        invariant timbres == old(timbres) && volumes == old(volumes) && enveloped == old(enveloped)
        invariant toneNoise == old(toneNoise) && keyOn == old(keyOn) && envelopeType == old(envelopeType)
      {
        WriteOperator(ch, t, op);
        assert OperatorRun(ch, t, op + 1) == OperatorRun(ch, t, op) + OperatorWrites(ch, t, op);
        assert log == start + OperatorRun(ch, t, op + 1);
        op := op + 1;
      }
      WriteReg(ADDR_FM_FB_ALGORITHM + ch, (t.feedback % 8) * 8 + t.algorithm % 8);
      timbres := timbres[ch := Some(t)];
    }

    /** The body of the operator loop. */
    method WriteOperator(ch: int, t: Timbre, op: int)
      modifies this
      requires 0 <= ch < FM_CH_NUM && 0 <= op < 4 && t.Valid()
      ensures log == old(log) + OperatorWrites(ch, t, op)
      ensures timbres == old(timbres) && volumes == old(volumes) && enveloped == old(enveloped)
      ensures toneNoise == old(toneNoise) && keyOn == old(keyOn) && envelopeType == old(envelopeType)
    {
      var detune := if t.detune[op] >= 0 then t.detune[op] else 4 - t.detune[op];
      var off := ch + OP_OFFSET[op];
      WriteReg(ADDR_FM_DETUNE_MULTI + off, (detune % 8) * 16 + t.multiple[op] % 16);
      WriteReg(ADDR_FM_TL + off, t.tl[op] % 128);
      WriteReg(ADDR_FM_AR_KEYSCALE + off, (t.keyScale[op] % 4) * 64 + t.ar[op] % 32);
      WriteReg(ADDR_FM_DR + off, t.dr[op] % 32);
      WriteReg(ADDR_FM_SR + off, t.sr[op] % 32);
      WriteReg(ADDR_FM_SL_RR + off, (t.sl[op] % 16) * 16 + t.rr[op] % 16);
    }
  }

  /** VolumeWrites over a list extended by one operator. */
  lemma {:induction false} VolumeWritesSnoc(ch: int, att: int, t: Timbre, adj: seq<int>, ops: seq<int>, op: int)
    requires 0 <= ch < FM_CH_NUM && t.Valid() && |adj| == 4 && 0 <= op < 4
    requires forall i :: 0 <= i < |ops| ==> 0 <= ops[i] < 4
    ensures VolumeWrites(ch, att, t, adj, ops + [op]) == VolumeWrites(ch, att, t, adj, ops) + [TlWrite(ch, att, t, adj, op)]
    decreases |ops|
  {
    if ops != [] {
      assert (ops + [op])[1..] == ops[1..] + [op];
      VolumeWritesSnoc(ch, att, t, adj, ops[1..], op);
    }
  }

  /** Keying an SSG channel on and then off, with its mask bits set in the
      mixer byte, restores the byte and writes it twice. */
  method SsgKeyOnThenOff(chip: YM2203, ch: int)
    modifies chip
    requires chip.Valid() && 0 <= ch < SSG_CH_NUM && chip.keyOn & chip.toneNoise[ch] == chip.toneNoise[ch]
    requires !chip.enveloped[ch]
    ensures chip.Valid() && chip.keyOn == old(chip.keyOn)
    ensures chip.log == old(chip.log) + [Write(ADDR_SSG_MIXING, KeyOnMix(old(chip.keyOn), chip.toneNoise[ch]) as int),
                                         Write(ADDR_SSG_MIXING, old(chip.keyOn) as int)]
  {
    chip.SsgKeyOn(ch);
    chip.SsgKeyOff(ch);
    KeyOnOffRestores(old(chip.keyOn), chip.toneNoise[ch]);
  }
}
