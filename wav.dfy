/** soundplayer.cpp: get_wav_header and the mixing half of
    VskSoundPlayer::save_as_wav. The realized phrase buffers arrive as
    sequences of 16-bit samples (their values come from the chip emulator,
    which is not part of this model); the file is a sequence of bytes. */
module Wav {
  import opened Base
  import Render

  const WAV_HEADER_SIZE: int := 44
  const TWO32: int := 0x1_0000_0000

  /** FM_SAMPLETYPE: a signed 16-bit sample. */
  newtype Sample = x: int | -32768 <= x <= 32767

  type Byte = x: int | 0 <= x < 256

  // ---------------------------------------------------------------------------
  // Little-endian fields

  /** The four bytes a uint32_t store writes on a little-endian machine. */
  function Le32(x: int): (b: seq<Byte>)
    ensures |b| == 4
  {
    var u := x % TWO32;
    [u % 256, (u / 256) % 256, (u / 65536) % 256, u / 16777216]
  }

  /** The two bytes of one int16 sample, two's complement, little-endian. */
  function Le16(v: Sample): (b: seq<Byte>)
    ensures |b| == 2
  {
    var u := (v as int) % 65536;
    [u % 256, u / 256]
  }

  /** Reading a little-endian uint32 back at `off`. */
  function ReadLe32(b: seq<Byte>, off: nat): int
    requires off + 4 <= |b|
  {
    b[off] as int + 256 * b[off + 1] as int + 65536 * b[off + 2] as int + 16777216 * b[off + 3] as int
  }

  function ReadLe16(b: seq<Byte>, off: nat): int
    requires off + 2 <= |b|
  {
    b[off] as int + 256 * b[off + 1] as int
  }

  /** A uint32 store reads back as the value reduced to 32 bits. */
  lemma Le32RoundTrip(x: int)
    ensures ReadLe32(Le32(x), 0) == x % TWO32
  {
    var u := x % TWO32;
    var b0, q0 := u % 256, u / 256;
    var b1, q1 := q0 % 256, q0 / 256;
    var b2 := q1 % 256;
    assert u / 65536 == q1;
    assert u / 16777216 == q1 / 256;
    assert q1 == b2 + 256 * (q1 / 256);
    assert q0 == b1 + 256 * q1;
    assert u == b0 + 256 * q0;
  }

  /** A sample store reads back, as a signed value, as the sample itself. */
  lemma Le16RoundTrip(v: Sample)
    ensures var r := ReadLe16(Le16(v), 0); (if r < 32768 then r else r - 65536) == v as int
  {
  }

  // ---------------------------------------------------------------------------
  // get_wav_header

  /** The static header template: "RIFF", "WAVE", a 16-byte `fmt ` chunk of
      linear PCM, one channel, 16 bits per sample, and "data"; the size and
      rate fields hold the placeholders the template carries until
      get_wav_header stores them. */
  const RIFF_TAG: seq<Byte> := [0x52, 0x49, 0x46, 0x46]
  const WAVE_TAG: seq<Byte> := [0x57, 0x41, 0x56, 0x45]
  const FMT_TAG: seq<Byte> := [0x66, 0x6D, 0x74, 0x20]
  const DATA_TAG: seq<Byte> := [0x64, 0x61, 0x74, 0x61]
  const FMT_SIZE: seq<Byte> := [0x10, 0x00, 0x00, 0x00]
  const PCM_FORMAT: seq<Byte> := [0x01, 0x00]
  const MONO: seq<Byte> := [0x01, 0x00]
  const RATE_PLACEHOLDER: seq<Byte> := [0x00, 0x00, 0x00, 0x00]
  const BYTE_RATE_PLACEHOLDER: seq<Byte> := [0x00, 0x7D, 0x00, 0x00]
  const BLOCK_ALIGN: seq<Byte> := [0x02, 0x00]
  const BITS_PER_SAMPLE: seq<Byte> := [0x10, 0x00]
  const SIZE_PLACEHOLDER: seq<Byte> := [0x00, 0x00, 0x00, 0x00]

  const TEMPLATE: seq<Byte> :=
    RIFF_TAG + SIZE_PLACEHOLDER + WAVE_TAG + FMT_TAG + FMT_SIZE + PCM_FORMAT + MONO
    + RATE_PLACEHOLDER + BYTE_RATE_PLACEHOLDER + BLOCK_ALIGN + BITS_PER_SAMPLE
    + DATA_TAG + SIZE_PLACEHOLDER

  /** `(uint32_t&)(header[off]) = x`. */
  function Store32(h: seq<Byte>, off: nat, x: int): (r: seq<Byte>)
    requires off + 4 <= |h|
    ensures |r| == |h| && r[off..off + 4] == Le32(x)
    ensures forall j :: 0 <= j < |h| && !(off <= j < off + 4) ==> r[j] == h[j]
  {
    h[..off] + Le32(x) + h[off + 4..]
  }

  /** get_wav_header(data_size, clock, sample_rate): offset 4 receives the
      RIFF size data_size + 36, offset 24 twice the sample rate, offset 28
      the chip clock and offset 40 the data size, each as a uint32. */
  function WavHeader(dataSize: int, clock: int, sampleRate: int): seq<Byte>
  {
    var h := Store32(TEMPLATE, 4, dataSize + WAV_HEADER_SIZE - 8);
    var h := Store32(h, 24, 2 * sampleRate);
    var h := Store32(h, 28, clock);
    Store32(h, 40, dataSize)
  }

  lemma ReadStored(h: seq<Byte>, off: nat, x: int)
    requires off + 4 <= |h| && h[off..off + 4] == Le32(x)
    ensures ReadLe32(h, off) == x % TWO32
  {
    Le32RoundTrip(x);
    assert h[off] == Le32(x)[0] && h[off + 1] == Le32(x)[1];
    assert h[off + 2] == Le32(x)[2] && h[off + 3] == Le32(x)[3];
  }

  /** Only the four stored fields differ from the template. */
  lemma HeaderKeepsTemplate(dataSize: int, clock: int, sampleRate: int)
    ensures var h := WavHeader(dataSize, clock, sampleRate);
      |h| == WAV_HEADER_SIZE &&
      forall j :: 0 <= j < WAV_HEADER_SIZE && !(4 <= j < 8) && !(24 <= j < 32) && !(40 <= j < 44)
                  ==> h[j] == TEMPLATE[j]
  {
  }

  /** Each stored field reads back as its value reduced to 32 bits. */
  lemma HeaderStoredFields(dataSize: int, clock: int, sampleRate: int)
    ensures var h := WavHeader(dataSize, clock, sampleRate);
      && |h| == WAV_HEADER_SIZE
      && ReadLe32(h, 4) == (dataSize + 36) % TWO32
      && ReadLe32(h, 24) == (2 * sampleRate) % TWO32
      && ReadLe32(h, 28) == clock % TWO32
      && ReadLe32(h, 40) == dataSize % TWO32
  {
    var h1 := Store32(TEMPLATE, 4, dataSize + WAV_HEADER_SIZE - 8);
    var h2 := Store32(h1, 24, 2 * sampleRate);
    var h3 := Store32(h2, 28, clock);
    var h := Store32(h3, 40, dataSize);
    ReadStored(h, 40, dataSize);
    assert h[28..32] == h3[28..32];
    ReadStored(h, 28, clock);
    assert h3[24..28] == h2[24..28] && h[24..28] == h3[24..28];
    ReadStored(h, 24, 2 * sampleRate);
    assert h2[4..8] == h1[4..8] && h3[4..8] == h2[4..8] && h[4..8] == h3[4..8];
    ReadStored(h, 4, dataSize + WAV_HEADER_SIZE - 8);
  }

  /** The template's fixed fields: the chunk tags, a 16-byte `fmt ` chunk,
      PCM format 1, one channel, 2-byte blocks of 16-bit samples. */
  predicate FixedFields(h: seq<Byte>)
    requires |h| == WAV_HEADER_SIZE
  {
    && h[..4] == [0x52, 0x49, 0x46, 0x46] && h[8..16] == [0x57, 0x41, 0x56, 0x45, 0x66, 0x6D, 0x74, 0x20]
    && ReadLe32(h, 16) == 16 && ReadLe16(h, 20) == 1 && ReadLe16(h, 22) == 1
    && ReadLe16(h, 32) == 2 && ReadLe16(h, 34) == 16 && h[36..40] == [0x64, 0x61, 0x74, 0x61]
  }

  lemma TemplateFixedFields()
    ensures |TEMPLATE| == WAV_HEADER_SIZE && FixedFields(TEMPLATE)
  {
    var t := TEMPLATE;
    assert t[..4] == RIFF_TAG;
    assert t[8..16] == WAVE_TAG + FMT_TAG;
    assert t[16..20] == FMT_SIZE;
    assert t[20..22] == PCM_FORMAT && t[22..24] == MONO;
    assert t[32..34] == BLOCK_ALIGN && t[34..36] == BITS_PER_SAMPLE;
    assert t[36..40] == DATA_TAG;
  }

  /** A header agreeing with the template outside the stored fields has the
      template's fixed fields. */
  lemma FixedFieldsKept(h: seq<Byte>)
    requires |h| == WAV_HEADER_SIZE
    requires forall j :: 0 <= j < WAV_HEADER_SIZE && !(4 <= j < 8) && !(24 <= j < 32) && !(40 <= j < 44)
                         ==> h[j] == TEMPLATE[j]
    ensures FixedFields(h)
  {
    TemplateFixedFields();
    assert h[..4] == TEMPLATE[..4];
    assert h[8..16] == TEMPLATE[8..16];
    assert h[16..24] == TEMPLATE[16..24];
    assert h[32..40] == TEMPLATE[32..40];
  }

  /** The header is 44 bytes of a mono 16-bit PCM RIFF/WAVE file whose size
      fields are the data size (offset 40) and the data size plus 36
      (offset 4). Offset 24, which a canonical `fmt ` chunk reserves for the
      sample rate, holds twice the sample rate, and offset 28, the byte rate
      of a canonical chunk, holds the clock: the code stores them so. */
  lemma WavHeaderFields(dataSize: int, clock: int, sampleRate: int)
    ensures var h := WavHeader(dataSize, clock, sampleRate);
      && |h| == WAV_HEADER_SIZE && FixedFields(h)
      && ReadLe32(h, 4) == (dataSize + 36) % TWO32
      && ReadLe32(h, 24) == (2 * sampleRate) % TWO32
      && ReadLe32(h, 28) == clock % TWO32
      && ReadLe32(h, 40) == dataSize % TWO32
  {
    HeaderKeepsTemplate(dataSize, clock, sampleRate);
    HeaderStoredFields(dataSize, clock, sampleRate);
    FixedFieldsKept(WavHeader(dataSize, clock, sampleRate));
  }

  /** With the player's constants, offset 24 reads 88200 and offset 28 reads
      8000000, where a canonical 44.1 kHz mono 16-bit header has 44100 and
      88200. */
  lemma PlayerHeaderRates(dataSize: int)
    ensures var h := WavHeader(dataSize, Render.CLOCK, Render.SAMPLERATE);
            ReadLe32(h, 24) == 88200 && ReadLe32(h, 28) == 8000000
  {
    HeaderStoredFields(dataSize, Render.CLOCK, Render.SAMPLERATE);
    assert (2 * Render.SAMPLERATE) % TWO32 == 88200;
    assert Render.CLOCK % TWO32 == 8000000;
  }

  // ---------------------------------------------------------------------------
  // Mixing

  /** Clipping a 32-bit sum to the int16 range. */
  function Clip(value: int): (s: Sample)
    ensures -32768 <= value <= 32767 ==> s as int == value
    ensures value < -32768 ==> s == -32768
    ensures value > 32767 ==> s == 32767
  {
    if value < -32768 then -32768 else if value > 32767 then 32767 else value as Sample
  }

  /** The sum, at sample index `i`, of the buffers that reach that index. */
  function SumAt(bufs: seq<seq<Sample>>, i: int): int
  {
    if bufs == [] then 0
    else SumAt(bufs[..|bufs| - 1], i) + (if 0 <= i < |bufs[|bufs| - 1]| then bufs[|bufs| - 1][i] as int else 0)
  }

  /** The length of the longest buffer. */
  function LongestLength(bufs: seq<seq<Sample>>): (n: nat)
    ensures forall k :: 0 <= k < |bufs| ==> |bufs[k]| <= n
    ensures bufs == [] ==> n == 0
    ensures bufs != [] ==> exists k :: 0 <= k < |bufs| && |bufs[k]| == n
  {
    if bufs == [] then 0
    else
      var n := LongestLength(bufs[..|bufs| - 1]);
      if n < |bufs[|bufs| - 1]| then |bufs[|bufs| - 1]| else n
  }

  /** The mixed PCM data: as long as the longest buffer, each sample the
      clipped sum of the buffers reaching it. */
  function Mixed(bufs: seq<seq<Sample>>): (m: seq<Sample>)
    ensures |m| == LongestLength(bufs)
    ensures forall i :: 0 <= i < |m| ==> m[i] == Clip(SumAt(bufs, i))
  {
    seq(LongestLength(bufs), i => Clip(SumAt(bufs, i)))
  }

  /** The buffers past their end contribute silence, so one buffer mixes to
      itself. */
  lemma MixOne(b: seq<Sample>)
    ensures Mixed([b]) == b
  {
    var m := Mixed([b]);
    assert [b][..0] == [];
    forall i | 0 <= i < |b| ensures m[i] == b[i] {
      assert SumAt([b], i) == b[i] as int;
    }
  }

  /** The order of the buffers does not matter. */
  lemma MixSwap(a: seq<Sample>, b: seq<Sample>)
    ensures Mixed([a, b]) == Mixed([b, a])
  {
    assert [a, b][..1] == [a] && [b, a][..1] == [b];
    assert [a][..0] == [] && [b][..0] == [];
    assert LongestLength([a, b]) == LongestLength([b, a]);
    forall i | 0 <= i < LongestLength([a, b]) ensures SumAt([a, b], i) == SumAt([b, a], i) {
    }
  }

  /** Adding a buffer of silence changes no sample, it only extends the
      output to its length. */
  lemma {:induction false} MixSilence(bufs: seq<seq<Sample>>, n: nat, i: nat)
    ensures SumAt(bufs + [seq(n, _ => 0 as Sample)], i) == SumAt(bufs, i)
  {
    assert (bufs + [seq(n, _ => 0 as Sample)])[..|bufs|] == bufs;
  }

  /** The loop over `isample` of save_as_wav, with its inner loop over the
      buffers. */
  method MixBuffers(bufs: seq<seq<Sample>>) returns (data: seq<Sample>)
    ensures data == Mixed(bufs)
  {
    var numSamples := 0;
    var k := 0;
    while k < |bufs|
      invariant k <= |bufs| && numSamples == LongestLength(bufs[..k])
    {
      assert bufs[..k + 1][..k] == bufs[..k];
      if numSamples < |bufs[k]| {
        numSamples := |bufs[k]|;
      }
      k := k + 1;
    }
    assert bufs[..|bufs|] == bufs;
    var out := new Sample[numSamples];
    var isample := 0;
    while isample < numSamples
      invariant isample <= numSamples == out.Length == LongestLength(bufs)
      invariant forall j :: 0 <= j < isample ==> out[j] == Clip(SumAt(bufs, j))
    {
      var value := SampleSum(bufs, isample);
      out[isample] := Clip(value);
      isample := isample + 1;
    }
    data := out[..];
  }

  /** The inner loop of the mix: the sum of every buffer's sample at `isample`. */
  method SampleSum(bufs: seq<seq<Sample>>, isample: nat) returns (value: int)
    ensures value == SumAt(bufs, isample)
  {
    value := 0;
    var b := 0;
    while b < |bufs|
      invariant b <= |bufs| && value == SumAt(bufs[..b], isample)
    {
      SumAtStep(bufs, b, isample);
      if isample < |bufs[b]| {
        value := value + bufs[b][isample] as int;
      }
      b := b + 1;
    }
    assert bufs[..|bufs|] == bufs;
  }

  /** SumAt over one more buffer adds that buffer's sample, if it has one. */
  lemma SumAtStep(bufs: seq<seq<Sample>>, b: nat, i: nat)
    requires b < |bufs|
    ensures SumAt(bufs[..b + 1], i) == SumAt(bufs[..b], i) + (if i < |bufs[b]| then bufs[b][i] as int else 0)
  {
    assert bufs[..b + 1][..b] == bufs[..b];
  }

  // ---------------------------------------------------------------------------
  // save_as_wav

  /** The data written after the header: each sample's two bytes in order. */
  function SampleBytes(data: seq<Sample>): (b: seq<Byte>)
    ensures |b| == 2 * |data|
    ensures forall i :: 0 <= i < |data| ==> b[2 * i..2 * i + 2] == Le16(data[i])
  {
    if data == [] then []
    else
      var rest := SampleBytes(data[1..]);
      var b := Le16(data[0]) + rest;
      assert forall i :: 1 <= i < |data| ==> b[2 * i..2 * i + 2] == rest[2 * (i - 1)..2 * (i - 1) + 2];
      b
  }

  /** save_as_wav: mixes the realized buffers and, when the file opens
      (`canOpen`, the outcome of _wfopen), writes the header for data_size
      (twice the longest buffer's sample count) followed by the data;
      otherwise it returns false and writes nothing. */
  method SaveAsWav(bufs: seq<seq<Sample>>, canOpen: bool) returns (ok: bool, file: seq<Byte>)
    ensures ok == canOpen
    ensures ok ==> file == WavHeader(2 * LongestLength(bufs), Render.CLOCK, Render.SAMPLERATE)
                           + SampleBytes(Mixed(bufs))
    ensures !ok ==> file == []
  {
    var data := MixBuffers(bufs);
    if !canOpen {
      return false, [];
    }
    var dataSize := 2 * |data|;
    file := WavHeader(dataSize, Render.CLOCK, Render.SAMPLERATE) + SampleBytes(data);
    ok := true;
  }

  /** Appending data after a header leaves the header's fields readable. */
  lemma ReadAfterAppend(h: seq<Byte>, d: seq<Byte>, off: nat)
    requires off + 4 <= |h|
    ensures ReadLe32(h + d, off) == ReadLe32(h, off)
  {
    assert (h + d)[off] == h[off] && (h + d)[off + 1] == h[off + 1];
    assert (h + d)[off + 2] == h[off + 2] && (h + d)[off + 3] == h[off + 3];
  }

  /** The written file: 44 header bytes announcing exactly the data that
      follows, whose every sample reads back as the clipped mix. */
  lemma {:induction false} WavFileLayout(bufs: seq<seq<Sample>>, i: nat)
    requires i < LongestLength(bufs) && 2 * LongestLength(bufs) + 36 < TWO32
    ensures var f := WavHeader(2 * LongestLength(bufs), Render.CLOCK, Render.SAMPLERATE) + SampleBytes(Mixed(bufs));
      && |f| == WAV_HEADER_SIZE + ReadLe32(f, 40)
      && ReadLe32(f, 4) == |f| - 8
      && f[44 + 2 * i..44 + 2 * i + 2] == Le16(Clip(SumAt(bufs, i)))
  {
    var n := LongestLength(bufs);
    var h := WavHeader(2 * n, Render.CLOCK, Render.SAMPLERATE);
    HeaderStoredFields(2 * n, Render.CLOCK, Render.SAMPLERATE);
    SmallMod(2 * n);
    SmallMod(2 * n + 36);
    FileLayout(h, Mixed(bufs), i);
  }

  lemma SmallMod(x: int)
    requires 0 <= x < TWO32
    ensures x % TWO32 == x
  {
  }

  lemma {:induction false} FileLayout(h: seq<Byte>, m: seq<Sample>, i: nat)
    requires |h| == WAV_HEADER_SIZE && i < |m|
    requires ReadLe32(h, 40) == 2 * |m| && ReadLe32(h, 4) == 2 * |m| + 36
    ensures var f := h + SampleBytes(m);
      && |f| == WAV_HEADER_SIZE + ReadLe32(f, 40)
      && ReadLe32(f, 4) == |f| - 8
      && f[44 + 2 * i..44 + 2 * i + 2] == Le16(m[i])
  {
    var d := SampleBytes(m);
    ReadAfterAppend(h, d, 40);
    ReadAfterAppend(h, d, 4);
    assert d[2 * i..2 * i + 2] == Le16(m[i]);
    assert (h + d)[44 + 2 * i..44 + 2 * i + 2] == d[2 * i..2 * i + 2];
  }
}
