/** soundplayer.cpp, VskPhrase::realize: the timing skeleton of rendering
    one phrase. The chip is an abstract sink that records what it is asked
    to do: timbre changes, pitch, volume, key on/off, register writes,
    mixing `n` stereo frames into the buffer at an offset, and advancing
    its clock by some microseconds. The one phrase channel (FM_CH1 or
    SSG_CH_A, defined in a header that is not part of this model) is
    implicit in every event. Seconds are reals; sample counts are their
    truncations. */
module Render {
  import opened Base
  import opened Notes
  import opened Phrases
  import opened Lfo

  const CLOCK: int := 8000000
  const SAMPLERATE: int := 44100
  /** The samples mixed between two LFO steps: SAMPLERATE / LFO_INTERVAL. */
  const UNIT: int := 294

  const TONE_MODE: int := 0
  const ADDR_SSG_ENV_FREQ_L: int := 0x0B
  const ADDR_SSG_ENV_FREQ_H: int := 0x0C
  const ADDR_SSG_ENV_TYPE: int := 0x0D

  datatype Event =
    | ChipInit(clock: int, rate: int) | ChipReset
    | SetTimbre(tone: int) | SetToneOrNoise(mode: int)
    | SetPitch(octave: int, key: int) | SetVolume(volume: int) | NoteOn | NoteOff
    /** set_volume and set_pitch with the LFO's adjustment, after the LFO
        step that left it in state `lfo`. */
    | LfoVolume(volume: int, lfo: LfoState) | LfoPitch(octave: int, key: int, lfo: LfoState)
    | Mix(offset: int, n: int) | Count(us: int) | RegWrite(addr: int, data: int)

  /** C++ conversion of a float to int: truncation toward zero. */
  function CInt(r: real): (i: int)
    ensures r >= 0.0 ==> i == r.Floor
  {
    if r >= 0.0 then r.Floor else -((-r).Floor)
  }

  // ---------------------------------------------------------------------------
  // Per-note timing

  /** What realize needs of a note: non-negative seconds and a quantity
      0..8, as the builders produce. */
  predicate NoteOk(n: Note)
  {
    n.sec >= 0.0 && 0 <= n.quantity <= 8
  }

  /** The sounding part (quantity eighths of the note) and the tail. */
  function SoundSec(n: Note): real
  {
    n.sec * n.quantity as real / 8.0
  }

  function TailSec(n: Note): real
  {
    n.sec * (8.0 - n.quantity as real) / 8.0
  }

  lemma NoteSecs(n: Note)
    requires NoteOk(n)
    ensures 0.0 <= SoundSec(n) && 0.0 <= TailSec(n) && SoundSec(n) + TailSec(n) == n.sec
  {
    var q := n.quantity as real;
    RealMulNonneg(n.sec, q);
    RealMulNonneg(n.sec, 8.0 - q);
    assert n.sec * q + n.sec * (8.0 - q) == n.sec * 8.0;
  }

  lemma RealMulNonneg(a: real, b: real)
    requires 0.0 <= a && 0.0 <= b
    ensures 0.0 <= a * b
  {
    if a > 0.0 && b > 0.0 {
      assert a * b > 0.0 * b;
    }
  }

  /** int(SAMPLERATE * sec) of the sounding part and of the tail. */
  function SoundSamples(n: Note): (k: nat)
    requires NoteOk(n)
  {
    NoteSecs(n);
    Trunc(44100.0 * SoundSec(n))
  }

  function TailSamples(n: Note): (k: nat)
    requires NoteOk(n)
  {
    NoteSecs(n);
    Trunc(44100.0 * TailSec(n))
  }

  /** uint32_t(sec * 1000 * 1000) of the two parts. */
  function SoundUs(n: Note): nat
    requires NoteOk(n)
  {
    NoteSecs(n);
    Trunc(SoundSec(n) * 1000.0 * 1000.0)
  }

  function TailUs(n: Note): nat
    requires NoteOk(n)
  {
    NoteSecs(n);
    Trunc(TailSec(n) * 1000.0 * 1000.0)
  }

  /** A note takes no more samples than its seconds hold. */
  lemma NoteSamplesBound(n: Note)
    requires NoteOk(n)
    ensures (SoundSamples(n) + TailSamples(n)) as real <= 44100.0 * n.sec
  {
    NoteSecs(n);
    assert 44100.0 * SoundSec(n) + 44100.0 * TailSec(n) == 44100.0 * n.sec;
  }

  /** The markers each branch handles without sounding. */
  predicate FmMarker(k: int)
  {
    k == KEY_TONE || k == KEY_REG || k == KEY_ENVELOP_INTERVAL || k == KEY_ENVELOP_TYPE
  }

  predicate SsgMarker(k: int)
  {
    k == KEY_SPECIAL_ACTION || k == KEY_REG || k == KEY_ENVELOP_INTERVAL || k == KEY_ENVELOP_TYPE
  }

  /** The register writes of the REG and ENVELOP_* markers. */
  function MarkerWrites(n: Note): (w: seq<Event>)
    requires n.key == KEY_REG || n.key == KEY_ENVELOP_INTERVAL || n.key == KEY_ENVELOP_TYPE
    ensures n.key == KEY_REG ==> w == [RegWrite(n.reg, n.data)]
    ensures n.key == KEY_ENVELOP_INTERVAL ==>
              |w| == 2 && w[0].RegWrite? && w[1].RegWrite?
              && w[0].addr == ADDR_SSG_ENV_FREQ_L && w[1].addr == ADDR_SSG_ENV_FREQ_H
              && 0 <= w[0].data < 256 && 0 <= w[1].data < 256 && w[0].data + 256 * w[1].data == n.data % 65536
    ensures n.key == KEY_ENVELOP_TYPE ==> w == [RegWrite(ADDR_SSG_ENV_TYPE, n.data % 16)]
  {
    if n.key == KEY_REG then [RegWrite(n.reg, n.data)]
    else if n.key == KEY_ENVELOP_INTERVAL then
      EnvelopeSplit(n.data);
      [RegWrite(ADDR_SSG_ENV_FREQ_L, n.data % 256), RegWrite(ADDR_SSG_ENV_FREQ_H, (n.data / 256) % 256)]
    else [RegWrite(ADDR_SSG_ENV_TYPE, n.data % 16)]
  }

  lemma EnvelopeSplit(d: int)
    ensures d % 256 + 256 * ((d / 256) % 256) == d % 65536
  {
    var q := d / 256;
    assert d == 256 * q + d % 256;
    assert q == 256 * (q / 256) + q % 256;
    assert d == 65536 * (q / 256) + (256 * (q % 256) + d % 256);
  }

  // ---------------------------------------------------------------------------
  // Mixing

  /** The stereo frames mixed by a list of events. */
  function MixTotal(es: seq<Event>): int
  {
    if es == [] then 0 else (if es[0].Mix? then es[0].n else 0) + MixTotal(es[1..])
  }

  /** Every mix writes inside data[lo..hi) (two samples per frame). */
  predicate MixesWithin(es: seq<Event>, lo: int, hi: int)
  {
    forall i :: 0 <= i < |es| && es[i].Mix? ==> lo <= es[i].offset && es[i].offset + 2 * es[i].n <= hi
  }

  lemma {:induction false} MixTotalAppend(a: seq<Event>, b: seq<Event>)
    ensures MixTotal(a + b) == MixTotal(a) + MixTotal(b)
  {
    if a == [] {
      assert a + b == b;
    } else {
      assert (a + b)[1..] == a[1..] + b;
      MixTotalAppend(a[1..], b);
    }
  }

  lemma MixesWithinAppend(a: seq<Event>, b: seq<Event>, lo: int, hi: int)
    requires MixesWithin(a, lo, hi) && MixesWithin(b, lo, hi)
    ensures MixesWithin(a + b, lo, hi)
  {
    forall i | 0 <= i < |a + b| && (a + b)[i].Mix?
      ensures lo <= (a + b)[i].offset && (a + b)[i].offset + 2 * (a + b)[i].n <= hi
    {
      if i >= |a| {
        assert (a + b)[i] == b[i - |a|];
      }
    }
  }

  lemma MixesWithinWiden(es: seq<Event>, lo: int, hi: int, lo': int, hi': int)
    requires MixesWithin(es, lo, hi) && lo' <= lo && hi <= hi'
    ensures MixesWithin(es, lo', hi')
  {
  }

  lemma MixTotalOne(e: Event)
    ensures MixTotal([e]) == (if e.Mix? then e.n else 0)
  {
    assert [e][1..] == [];
  }

  predicate NoMix(es: seq<Event>)
  {
    forall i :: 0 <= i < |es| ==> !es[i].Mix?
  }

  /** Events without a mix mix nothing. */
  lemma {:induction false} NoMixes(es: seq<Event>)
    requires NoMix(es)
    ensures MixTotal(es) == 0
  {
    if es != [] {
      NoMixes(es[1..]);
    }
  }

  /** No event that sounds or keys: only register writes, timbre and
      mode changes. */
  predicate Silent(es: seq<Event>)
  {
    forall i :: 0 <= i < |es| ==> !es[i].Mix? && !es[i].Count? && es[i] != NoteOn && es[i] != NoteOff
  }

  // ---------------------------------------------------------------------------
  // The FM chunk loop

  datatype Chunked = Chunked(events: seq<Event>, lfo: LfoState)

  /** The `while (nsamples)` loop of the FM branch: mix at most UNIT frames,
      then, for a keyed note, step the LFO and reapply volume and pitch. */
  function FmChunks(isample: int, n: nat, keyed: bool, volume: int, octave: int, key: int,
                    lfo: LfoState): (c: Chunked)
    decreases n
  {
    if n == 0 then Chunked([], lfo)
    else
      var unit := Min(UNIT, n);
      var lfo' := if keyed then Tick(lfo) else lfo;
      var rest := FmChunks(isample + unit, n - unit, keyed, volume, octave, key, lfo');
      Chunked(PassEvents(isample, unit, keyed, volume, octave, key, lfo') + rest.events, rest.lfo)
  }

  /** The events of one pass, the LFO already stepped to `lfo`. */
  function PassEvents(isample: int, unit: int, keyed: bool, volume: int, octave: int, key: int,
                      lfo: LfoState): (es: seq<Event>)
    ensures |es| >= 1 && es[0] == Mix(2 * isample, unit)
    ensures forall i :: 1 <= i < |es| ==> es[i].LfoVolume? || es[i].LfoPitch?
    ensures keyed <==> |es| == 3
  {
    [Mix(2 * isample, unit)] + (if keyed then [LfoVolume(volume, lfo), LfoPitch(octave, key, lfo)] else [])
  }

  /** One pass of the loop, unfolded. */
  lemma FmChunksStep(isample: int, n: nat, keyed: bool, volume: int, octave: int, key: int, lfo: LfoState)
    requires n > 0
    ensures var unit := Min(UNIT, n);
            var lfo' := if keyed then Tick(lfo) else lfo;
            var rest := FmChunks(isample + unit, n - unit, keyed, volume, octave, key, lfo');
            FmChunks(isample, n, keyed, volume, octave, key, lfo)
              == Chunked(PassEvents(isample, unit, keyed, volume, octave, key, lfo') + rest.events, rest.lfo)
  {
  }

  /** The invariant of the chunk loop carried over one pass. */
  lemma ChunksInvariantStep(c0: Chunked, done: seq<Event>, isample: int, n: nat, keyed: bool,
                            volume: int, octave: int, key: int, lfo: LfoState)
    requires n > 0
    requires var c := FmChunks(isample, n, keyed, volume, octave, key, lfo);
             c0 == Chunked(done + c.events, c.lfo)
    ensures var unit := Min(UNIT, n);
            var lfo' := if keyed then Tick(lfo) else lfo;
            var c := FmChunks(isample + unit, n - unit, keyed, volume, octave, key, lfo');
            c0 == Chunked(done + PassEvents(isample, unit, keyed, volume, octave, key, lfo') + c.events, c.lfo)
  {
    var unit := Min(UNIT, n);
    var lfo' := if keyed then Tick(lfo) else lfo;
    var pass := PassEvents(isample, unit, keyed, volume, octave, key, lfo');
    var rest := FmChunks(isample + unit, n - unit, keyed, volume, octave, key, lfo');
    FmChunksStep(isample, n, keyed, volume, octave, key, lfo);
    assert done + (pass + rest.events) == done + pass + rest.events;
  }

  /** The number of loop passes for n frames: n / UNIT rounded up. */
  function Passes(n: nat): nat
  {
    (n + UNIT - 1) / UNIT
  }

  /** The events of the chunks: mixes of 1..UNIT frames and LFO
      adjustments, nothing that counts or keys. */
  predicate ChunkShape(es: seq<Event>)
  {
    forall i :: 0 <= i < |es| ==>
      (es[i].Mix? ==> 1 <= es[i].n <= UNIT) && !es[i].Count? && es[i] != NoteOn && es[i] != NoteOff
  }

  lemma ChunkShapeAppend(a: seq<Event>, b: seq<Event>)
    requires ChunkShape(a) && ChunkShape(b)
    ensures ChunkShape(a + b)
  {
    forall i | 0 <= i < |a + b|
      ensures var e := (a + b)[i]; (e.Mix? ==> 1 <= e.n <= UNIT) && !e.Count? && e != NoteOn && e != NoteOff
    {
      if i >= |a| {
        assert (a + b)[i] == b[i - |a|];
      }
    }
  }

  /** The frames of one pass are mixed where the pass starts. */
  lemma PassFacts(isample: int, n: nat, keyed: bool, volume: int, octave: int, key: int, lfo: LfoState)
    requires n > 0
    ensures var unit := Min(UNIT, n);
            var es := PassEvents(isample, unit, keyed, volume, octave, key, lfo);
            MixTotal(es) == unit && MixesWithin(es, 2 * isample, 2 * (isample + n)) && ChunkShape(es)
  {
    var unit := Min(UNIT, n);
    var es := PassEvents(isample, unit, keyed, volume, octave, key, lfo);
    MixTotalOne(es[0]);
    MixTotalAppend([es[0]], es[1..]);
    assert es == [es[0]] + es[1..];
    NoMixes(es[1..]);
  }

  /** The chunks mix exactly n frames, contiguously from the note's first
      frame. */
  lemma {:induction false} FmChunksMix(isample: int, n: nat, keyed: bool, volume: int, octave: int, key: int,
                                       lfo: LfoState)
    ensures var c := FmChunks(isample, n, keyed, volume, octave, key, lfo);
            MixTotal(c.events) == n && MixesWithin(c.events, 2 * isample, 2 * (isample + n))
    decreases n
  {
    if n > 0 {
      var unit := Min(UNIT, n);
      var lfo' := if keyed then Tick(lfo) else lfo;
      var here := PassEvents(isample, unit, keyed, volume, octave, key, lfo');
      FmChunksMix(isample + unit, n - unit, keyed, volume, octave, key, lfo');
      var rest := FmChunks(isample + unit, n - unit, keyed, volume, octave, key, lfo');
      PassFacts(isample, n, keyed, volume, octave, key, lfo');
      assert FmChunks(isample, n, keyed, volume, octave, key, lfo).events == here + rest.events;
      MixTotalAppend(here, rest.events);
      MixesWithinWiden(rest.events, 2 * (isample + unit), 2 * (isample + unit + (n - unit)), 2 * isample, 2 * (isample + n));
      MixesWithinAppend(here, rest.events, 2 * isample, 2 * (isample + n));
    }
  }

  /** No chunk mixes more than UNIT frames, and none counts or keys. */
  lemma {:induction false} FmChunksShape(isample: int, n: nat, keyed: bool, volume: int, octave: int, key: int,
                                         lfo: LfoState)
    ensures ChunkShape(FmChunks(isample, n, keyed, volume, octave, key, lfo).events)
    decreases n
  {
    if n > 0 {
      var unit := Min(UNIT, n);
      var lfo' := if keyed then Tick(lfo) else lfo;
      FmChunksShape(isample + unit, n - unit, keyed, volume, octave, key, lfo');
      PassFacts(isample, n, keyed, volume, octave, key, lfo');
      ChunkShapeAppend(PassEvents(isample, unit, keyed, volume, octave, key, lfo'),
                       FmChunks(isample + unit, n - unit, keyed, volume, octave, key, lfo').events);
    }
  }

  /** A keyed note steps its LFO once per pass; an unkeyed one leaves it
      alone. */
  lemma {:induction false} FmChunksLfo(isample: int, n: nat, keyed: bool, volume: int, octave: int, key: int,
                                       lfo: LfoState)
    ensures var c := FmChunks(isample, n, keyed, volume, octave, key, lfo);
            (keyed ==> c.lfo == Ticks(lfo, Passes(n))) && (!keyed ==> c.lfo == lfo)
    decreases n
  {
    if n > 0 {
      var unit := Min(UNIT, n);
      var lfo' := if keyed then Tick(lfo) else lfo;
      FmChunksLfo(isample + unit, n - unit, keyed, volume, octave, key, lfo');
      if keyed {
        PassesStep(n);
      }
    }
  }

  /** One pass consumes one UNIT (or the rest). */
  lemma PassesStep(n: nat)
    requires n > 0
    ensures Passes(n) == 1 + Passes(n - Min(UNIT, n))
  {
    if n > UNIT {
      assert n + UNIT - 1 == (n - UNIT + UNIT - 1) + UNIT;
    }
  }

  // ---------------------------------------------------------------------------
  // One note

  /** The state realize carries from note to note: the chip's events, the
      next frame, the LFO's integer state, the current timbre and the scheduled special actions. */
  datatype Rendered = Rendered(events: seq<Event>, isample: int, lfo: LfoState, timbre: Timbre,
                               actions: seq<(real, int)>)

  /** set_pitch, set_volume and note_on, unless the note is a rest or a
      special rest. */
  function KeyOnEvents(n: Note): seq<Event>
  {
    if n.key != KEY_REST && n.key != KEY_SPECIAL_REST then [SetPitch(n.octave, n.key), SetVolume(CInt(n.volume)), NoteOn] else []
  }

  /** note_off, unless the note is a special rest. */
  function KeyOffEvents(n: Note): seq<Event>
  {
    if n.key != KEY_SPECIAL_REST then [NoteOff] else []
  }

  /** Keying mixes nothing; key on and key off each appear exactly when
      the note's kind calls for them. */
  lemma KeyEventsFacts(n: Note)
    ensures MixTotal(KeyOnEvents(n)) == 0 && MixTotal(KeyOffEvents(n)) == 0
    ensures NoMix(KeyOnEvents(n)) && NoMix(KeyOffEvents(n))
    ensures (NoteOn in KeyOnEvents(n) <==> n.key != KEY_REST && n.key != KEY_SPECIAL_REST) && NoteOff !in KeyOnEvents(n)
    ensures (NoteOff in KeyOffEvents(n) <==> n.key != KEY_SPECIAL_REST) && NoteOn !in KeyOffEvents(n)
    ensures forall i :: 0 <= i < |KeyOnEvents(n)| ==> !KeyOnEvents(n)[i].Count?
  {
    NoMixes(KeyOnEvents(n));
    NoMixes(KeyOffEvents(n));
  }

  /** What the FM branch adds for a note that is not a marker: key on, the
      chunk loop from the LFO as init_for_keyon leaves it, the clock of the
      sounding part, key off, the tail (at most SAMPLERATE frames of it)
      and its clock. */
  function FmSoundEvents(isample: int, n: Note, lfo1: LfoState): (es: seq<Event>)
    requires NoteOk(n)
  {
    var n1 := SoundSamples(n);
    KeyOnEvents(n)
    + FmChunks(isample, n1, n.key != KEY_REST && n.key != KEY_SPECIAL_REST, CInt(n.volume), n.octave, n.key, lfo1).events
    + FmTailEvents(isample + n1, n)
  }

  /** The clock of the sounding part, key off, at most SAMPLERATE frames
      of the tail from frame `isample` and the tail's clock. */
  function FmTailEvents(isample: int, n: Note): seq<Event>
    requires NoteOk(n)
  {
    [Count(SoundUs(n))] + KeyOffEvents(n) + [Mix(2 * isample, Min(SAMPLERATE, TailSamples(n))), Count(TailUs(n))]
  }

  /** The LFO after init_for_keyon, for a note that is not a special rest. */
  function KeyOnLfo(lfo: LfoState, t: Timbre, n: Note): LfoState
  {
    if n.key != KEY_SPECIAL_REST then ForKeyOn(lfo, t.sync) else lfo
  }

  /** One pass of the FM branch's note loop. */
  function FmNote(r: Rendered, n: Note, toneTable: seq<Timbre>): (out: Rendered)
    requires NoteOk(n) && (n.key == KEY_TONE ==> 0 <= n.data < |toneTable|)
    ensures out.actions == r.actions
  {
    if n.key == KEY_TONE then
      var t := toneTable[n.data];
      r.(events := r.events + [SetTimbre(n.data)], lfo := ForTimbre(t), timbre := t)
    else if FmMarker(n.key) then r.(events := r.events + MarkerWrites(n))
    else
      var lfo1 := KeyOnLfo(r.lfo, r.timbre, n);
      var c := FmChunks(r.isample, SoundSamples(n), n.key != KEY_REST && n.key != KEY_SPECIAL_REST,
                        CInt(n.volume), n.octave, n.key, lfo1);
      r.(events := r.events + FmSoundEvents(r.isample, n, lfo1),
         isample := r.isample + SoundSamples(n) + TailSamples(n), lfo := c.lfo)
  }

  /** What the SSG branch adds for a note that is not a marker: key on,
      the sounding part and its clock, key off, the whole tail and its
      clock. */
  function SsgSoundEvents(isample: int, n: Note): seq<Event>
    requires NoteOk(n)
  {
    var n1 := SoundSamples(n);
    KeyOnEvents(n) + [Mix(2 * isample, n1), Count(SoundUs(n))] + KeyOffEvents(n)
    + [Mix(2 * (isample + n1), TailSamples(n)), Count(TailUs(n))]
  }

  /** One pass of the SSG branch's note loop. */
  function SsgNote(r: Rendered, n: Note): (out: Rendered)
    requires NoteOk(n)
    ensures out.lfo == r.lfo && out.timbre == r.timbre
  {
    if n.key == KEY_SPECIAL_ACTION then r.(actions := r.actions + [(n.gate, n.data)])
    else if SsgMarker(n.key) then r.(events := r.events + MarkerWrites(n))
    else r.(events := r.events + SsgSoundEvents(r.isample, n), isample := r.isample + SoundSamples(n) + TailSamples(n))
  }

  lemma MixPairFacts(offset: int, k: int, us: int)
    ensures MixTotal([Mix(offset, k), Count(us)]) == k
  {
    assert [Mix(offset, k), Count(us)][1..] == [Count(us)];
    MixTotalOne(Count(us));
  }

  /** The tail of an FM note mixes at most SAMPLERATE frames from its
      first frame on, never keys on, and keys off unless the note is a
      special rest. */
  lemma FmTailFacts(isample: int, n: Note)
    requires NoteOk(n)
    ensures var t := FmTailEvents(isample, n);
            MixTotal(t) == Min(SAMPLERATE, TailSamples(n)) && MixesWithin(t, 2 * isample, 2 * (isample + TailSamples(n)))
            && NoteOn !in t && (NoteOff in t <==> n.key != KEY_SPECIAL_REST)
  {
    var lo, hi := 2 * isample, 2 * (isample + TailSamples(n));
    var d := [Count(SoundUs(n))];
    var e := KeyOffEvents(n);
    var f := [Mix(2 * isample, Min(SAMPLERATE, TailSamples(n))), Count(TailUs(n))];
    assert FmTailEvents(isample, n) == d + e + f;
    KeyEventsFacts(n);
    MixTotalOne(d[0]);
    MixPairFacts(2 * isample, Min(SAMPLERATE, TailSamples(n)), TailUs(n));
    MixTotalAppend(d, e);
    MixTotalAppend(d + e, f);
    MixesWithinAppend(d, e, lo, hi);
    MixesWithinAppend(d + e, f, lo, hi);
  }

  /** The FM events of a note mix its n1 sounding frames and at most
      SAMPLERATE tail frames, all inside the frames the note takes. */
  lemma FmSoundMix(isample: int, n: Note, lfo1: LfoState)
    requires NoteOk(n)
    ensures var es := FmSoundEvents(isample, n, lfo1);
            MixTotal(es) == SoundSamples(n) + Min(SAMPLERATE, TailSamples(n))
            && MixesWithin(es, 2 * isample, 2 * (isample + SoundSamples(n) + TailSamples(n)))
  {
    var n1, n2 := SoundSamples(n), TailSamples(n);
    var lo, hi := 2 * isample, 2 * (isample + n1 + n2);
    var keyed := n.key != KEY_REST && n.key != KEY_SPECIAL_REST;
    var a := KeyOnEvents(n);
    var c := FmChunks(isample, n1, keyed, CInt(n.volume), n.octave, n.key, lfo1).events;
    var t := FmTailEvents(isample + n1, n);
    assert FmSoundEvents(isample, n, lfo1) == a + c + t;
    assert NoMix(a) by {
      KeyEventsFacts(n);
    }
    assert MixTotal(c) == n1 && MixesWithin(c, lo, 2 * (isample + n1)) by {
      FmChunksMix(isample, n1, keyed, CInt(n.volume), n.octave, n.key, lfo1);
    }
    assert MixTotal(t) == Min(SAMPLERATE, n2) && MixesWithin(t, 2 * (isample + n1), hi) by {
      FmTailFacts(isample + n1, n);
    }
    Concat3(a, c, t, lo, 2 * (isample + n1), hi);
  }

  /** Key events, then mixes up to `mid`, then mixes from `mid`. */
  lemma Concat3(a: seq<Event>, c: seq<Event>, t: seq<Event>, lo: int, mid: int, hi: int)
    requires NoMix(a) && MixesWithin(c, lo, mid) && MixesWithin(t, mid, hi)
    requires lo <= mid <= hi
    ensures MixTotal(a + c + t) == MixTotal(c) + MixTotal(t) && MixesWithin(a + c + t, lo, hi)
  {
    NoMixes(a);
    MixesWithinWiden(c, lo, mid, lo, hi);
    MixesWithinWiden(t, mid, hi, lo, hi);
    MixTotalAppend(a, c);
    MixTotalAppend(a + c, t);
    MixesWithinAppend(a, c, lo, hi);
    MixesWithinAppend(a + c, t, lo, hi);
  }

  /** The FM events of a note key on exactly when it is neither rest nor
      special rest, and key off unless it is a special rest. */
  lemma FmSoundKeys(isample: int, n: Note, lfo1: LfoState)
    requires NoteOk(n)
    ensures var es := FmSoundEvents(isample, n, lfo1);
            (NoteOn in es <==> n.key != KEY_REST && n.key != KEY_SPECIAL_REST)
            && (NoteOff in es <==> n.key != KEY_SPECIAL_REST)
  {
    var keyed := n.key != KEY_REST && n.key != KEY_SPECIAL_REST;
    var c := FmChunks(isample, SoundSamples(n), keyed, CInt(n.volume), n.octave, n.key, lfo1).events;
    KeyEventsFacts(n);
    FmChunksShape(isample, SoundSamples(n), keyed, CInt(n.volume), n.octave, n.key, lfo1);
    FmTailFacts(isample + SoundSamples(n), n);
    assert NoteOn !in c && NoteOff !in c;
  }

  /** The added events of one FM note: a marker mixes, counts and keys
      nothing and takes no frames; any other note takes its sounding and
      tail frames, mixes all of the sounding part but at most SAMPLERATE
      frames of the tail, keys on exactly when it is neither a rest nor a
      special rest and keys off unless it is a special rest. */
  lemma FmNoteTiming(r: Rendered, n: Note, toneTable: seq<Timbre>)
    requires NoteOk(n) && (n.key == KEY_TONE ==> 0 <= n.data < |toneTable|)
    ensures var out := FmNote(r, n, toneTable);
            var added := out.events[|r.events|..];
            |r.events| <= |out.events| && out.events[..|r.events|] == r.events
            && MixesWithin(added, 2 * r.isample, 2 * out.isample)
            && (FmMarker(n.key) ==> out.isample == r.isample && Silent(added))
            && (!FmMarker(n.key) ==>
                  out.isample == r.isample + SoundSamples(n) + TailSamples(n)
                  && MixTotal(added) == SoundSamples(n) + Min(SAMPLERATE, TailSamples(n))
                  && (NoteOn in added <==> n.key != KEY_REST && n.key != KEY_SPECIAL_REST)
                  && (NoteOff in added <==> n.key != KEY_SPECIAL_REST))
  {
    var out := FmNote(r, n, toneTable);
    var added: seq<Event>;
    if n.key == KEY_TONE {
      added := [SetTimbre(n.data)];
    } else if FmMarker(n.key) {
      added := MarkerWrites(n);
    } else {
      var lfo1 := KeyOnLfo(r.lfo, r.timbre, n);
      added := FmSoundEvents(r.isample, n, lfo1);
      FmSoundMix(r.isample, n, lfo1);
      FmSoundKeys(r.isample, n, lfo1);
    }
    assert out.events == r.events + added;
    assert out.events[..|r.events|] == r.events && out.events[|r.events|..] == added;
  }

  /** The SSG events of a note mix all the frames it takes, inside them,
      key on exactly when it is neither rest nor special rest, and key off
      unless it is a special rest. */
  lemma SsgSoundFacts(isample: int, n: Note)
    requires NoteOk(n)
    ensures var es := SsgSoundEvents(isample, n);
            MixTotal(es) == SoundSamples(n) + TailSamples(n)
            && MixesWithin(es, 2 * isample, 2 * (isample + SoundSamples(n) + TailSamples(n)))
            && (NoteOn in es <==> n.key != KEY_REST && n.key != KEY_SPECIAL_REST)
            && (NoteOff in es <==> n.key != KEY_SPECIAL_REST)
  {
    var n1, n2 := SoundSamples(n), TailSamples(n);
    var lo, hi := 2 * isample, 2 * (isample + n1 + n2);
    var a := KeyOnEvents(n);
    var c := [Mix(2 * isample, n1), Count(SoundUs(n))];
    var e := KeyOffEvents(n);
    var f := [Mix(2 * (isample + n1), n2), Count(TailUs(n))];
    KeyEventsFacts(n);
    MixPairFacts(2 * isample, n1, SoundUs(n));
    MixPairFacts(2 * (isample + n1), n2, TailUs(n));
    MixTotalAppend(a, c);
    MixTotalAppend(a + c, e);
    MixTotalAppend(a + c + e, f);
    MixesWithinAppend(a, c, lo, hi);
    MixesWithinAppend(a + c, e, lo, hi);
    MixesWithinAppend(a + c + e, f, lo, hi);
  }

  /** The added events of one SSG note: a special action is scheduled at
      its gate, the other markers only write registers; any other note
      mixes all its frames, keys on exactly when it is neither rest nor
      special rest and keys off unless it is a special rest. */
  lemma SsgNoteTiming(r: Rendered, n: Note)
    requires NoteOk(n)
    ensures var out := SsgNote(r, n);
            var added := out.events[|r.events|..];
            |r.events| <= |out.events| && out.events[..|r.events|] == r.events
            && MixesWithin(added, 2 * r.isample, 2 * out.isample)
            && out.actions == r.actions + (if n.key == KEY_SPECIAL_ACTION then [(n.gate, n.data)] else [])
            && (SsgMarker(n.key) ==> out.isample == r.isample && Silent(added))
            && (!SsgMarker(n.key) ==>
                  out.isample == r.isample + SoundSamples(n) + TailSamples(n)
                  && MixTotal(added) == SoundSamples(n) + TailSamples(n)
                  && (NoteOn in added <==> n.key != KEY_REST && n.key != KEY_SPECIAL_REST)
                  && (NoteOff in added <==> n.key != KEY_SPECIAL_REST))
  {
    var out := SsgNote(r, n);
    var added: seq<Event>;
    if n.key == KEY_SPECIAL_ACTION {
      added := [];
    } else if SsgMarker(n.key) {
      added := MarkerWrites(n);
    } else {
      added := SsgSoundEvents(r.isample, n);
      SsgSoundFacts(r.isample, n);
    }
    assert out.events == r.events + added;
    assert out.events[..|r.events|] == r.events && out.events[|r.events|..] == added;
  }

  // ---------------------------------------------------------------------------
  // One phrase

  /** Every note has non-negative seconds and a quantity 0..8. */
  predicate AllOk(ns: seq<Note>)
  {
    forall i :: 0 <= i < |ns| ==> NoteOk(ns[i])
  }

  /** Every tone change names an entry of the tone table (the assert of
      the FM branch). */
  predicate ToneFit(ns: seq<Note>, toneCount: int)
  {
    forall i :: 0 <= i < |ns| && ns[i].key == KEY_TONE ==> 0 <= ns[i].data < toneCount
  }

  predicate Marker(fm: bool, k: int)
  {
    if fm then FmMarker(k) else SsgMarker(k)
  }

  /** The frames a branch advances over a list of notes. */
  function Frames(fm: bool, ns: seq<Note>): nat
    requires AllOk(ns)
  {
    if ns == [] then 0
    else (if Marker(fm, ns[0].key) then 0 else SoundSamples(ns[0]) + TailSamples(ns[0])) + Frames(fm, ns[1..])
  }

  /** The special actions of a list of notes, with their gates, in order. */
  function SpecialActions(ns: seq<Note>): seq<(real, int)>
  {
    if ns == [] then []
    else (if ns[0].key == KEY_SPECIAL_ACTION then [(ns[0].gate, ns[0].data)] else []) + SpecialActions(ns[1..])
  }

  /** The note loop of the FM branch. */
  function FmRender(r: Rendered, ns: seq<Note>, toneTable: seq<Timbre>): (out: Rendered)
    requires AllOk(ns) && ToneFit(ns, |toneTable|)
    decreases |ns|
  {
    if ns == [] then r else FmRender(FmNote(r, ns[0], toneTable), ns[1..], toneTable)
  }

  /** The note loop of the SSG branch. */
  function SsgRender(r: Rendered, ns: seq<Note>): (out: Rendered)
    requires AllOk(ns)
    decreases |ns|
  {
    if ns == [] then r else SsgRender(SsgNote(r, ns[0]), ns[1..])
  }

  /** The SSG branch leaves the timbre and the LFO alone. */
  lemma {:induction false} SsgRenderKeeps(r: Rendered, ns: seq<Note>)
    requires AllOk(ns)
    ensures SsgRender(r, ns).timbre == r.timbre && SsgRender(r, ns).lfo == r.lfo
    decreases |ns|
  {
    if ns != [] {
      assert AllOk(ns[1..]);
      SsgRenderKeeps(SsgNote(r, ns[0]), ns[1..]);
    }
  }

  /** Extending a log: what two successive extensions add is what the
      first added followed by what the second added. */
  lemma AddedConcat(a: seq<Event>, b: seq<Event>, c: seq<Event>)
    requires |a| <= |b| && b[..|a|] == a && |b| <= |c| && c[..|b|] == b
    ensures |a| <= |c| && c[..|a|] == a && c[|a|..] == b[|a|..] + c[|b|..]
  {
    assert c[..|b|][..|a|] == c[..|a|];
  }

  /** The FM note loop only appends to the log, advances by the frames of
      its notes, mixes only inside them and schedules no action. */
  lemma {:induction false} FmRenderFrames(r: Rendered, ns: seq<Note>, toneTable: seq<Timbre>)
    requires AllOk(ns) && ToneFit(ns, |toneTable|)
    ensures var out := FmRender(r, ns, toneTable);
            |r.events| <= |out.events| && out.events[..|r.events|] == r.events
            && out.isample == r.isample + Frames(true, ns)
            && MixesWithin(out.events[|r.events|..], 2 * r.isample, 2 * out.isample)
            && out.actions == r.actions
    decreases |ns|
  {
    var out := FmRender(r, ns, toneTable);
    if ns == [] {
      assert out.events[|r.events|..] == [];
    } else {
      var mid := FmNote(r, ns[0], toneTable);
      FmNoteTiming(r, ns[0], toneTable);
      assert AllOk(ns[1..]) && ToneFit(ns[1..], |toneTable|);
      FmRenderFrames(mid, ns[1..], toneTable);
      AddedConcat(r.events, mid.events, out.events);
      MixesWithinWiden(mid.events[|r.events|..], 2 * r.isample, 2 * mid.isample, 2 * r.isample, 2 * out.isample);
      MixesWithinWiden(out.events[|mid.events|..], 2 * mid.isample, 2 * out.isample, 2 * r.isample, 2 * out.isample);
      MixesWithinAppend(mid.events[|r.events|..], out.events[|mid.events|..], 2 * r.isample, 2 * out.isample);
    }
  }

  /** The SSG note loop only appends to the log, advances by the frames of
      its notes, mixes only inside them and schedules exactly the special
      actions of its notes, in order. */
  lemma {:induction false} SsgRenderFrames(r: Rendered, ns: seq<Note>)
    requires AllOk(ns)
    ensures var out := SsgRender(r, ns);
            |r.events| <= |out.events| && out.events[..|r.events|] == r.events
            && out.isample == r.isample + Frames(false, ns)
            && MixesWithin(out.events[|r.events|..], 2 * r.isample, 2 * out.isample)
            && out.actions == r.actions + SpecialActions(ns)
    decreases |ns|
  {
    SsgRenderActions(r, ns);
    var out := SsgRender(r, ns);
    if ns == [] {
      assert out.events[|r.events|..] == [];
    } else {
      var mid := SsgNote(r, ns[0]);
      SsgNoteTiming(r, ns[0]);
      assert AllOk(ns[1..]);
      SsgRenderFrames(mid, ns[1..]);
      assert out == SsgRender(mid, ns[1..]);
      AddedConcat(r.events, mid.events, out.events);
      MixesWithinWiden(mid.events[|r.events|..], 2 * r.isample, 2 * mid.isample, 2 * r.isample, 2 * out.isample);
      MixesWithinWiden(out.events[|mid.events|..], 2 * mid.isample, 2 * out.isample, 2 * r.isample, 2 * out.isample);
      MixesWithinAppend(mid.events[|r.events|..], out.events[|mid.events|..], 2 * r.isample, 2 * out.isample);
    }
  }

  /** The SSG note loop schedules exactly the special actions of its notes, in order. */
  lemma {:induction false} SsgRenderActions(r: Rendered, ns: seq<Note>)
    requires AllOk(ns)
    ensures SsgRender(r, ns).actions == r.actions + SpecialActions(ns)
    decreases |ns|
  {
    if ns != [] {
      var mid := SsgNote(r, ns[0]);
      var a := if ns[0].key == KEY_SPECIAL_ACTION then [(ns[0].gate, ns[0].data)] else [];
      assert mid.actions == r.actions + a;
      assert AllOk(ns[1..]);
      SsgRenderActions(mid, ns[1..]);
      assert SsgRender(r, ns) == SsgRender(mid, ns[1..]);
      assert SpecialActions(ns) == a + SpecialActions(ns[1..]);
      assert r.actions + a + SpecialActions(ns[1..]) == r.actions + (a + SpecialActions(ns[1..]));
    }
  }

  lemma {:induction false} SumSecNonneg(ns: seq<Note>)
    requires AllOk(ns)
    ensures SumSec(ns) >= 0.0
  {
    if ns != [] {
      assert AllOk(ns[1..]);
      SumSecNonneg(ns[1..]);
    }
  }

  /** The frames of a list of notes fit in the samples its seconds hold. */
  lemma {:induction false} FramesBound(fm: bool, ns: seq<Note>)
    requires AllOk(ns)
    ensures Frames(fm, ns) as real <= 44100.0 * SumSec(ns)
  {
    if ns != [] {
      assert AllOk(ns[1..]);
      FramesBound(fm, ns[1..]);
      NoteSamplesBound(ns[0]);
    }
  }

  // ---------------------------------------------------------------------------
  // Realize

  /** The notes the branches render: calc_total's gates, then rescan_notes'
      merge of ties. */
  function RenderedNotes(notes: seq<Note>): seq<Note>
    requires TiesClosed(notes)
  {
    WithGatesTies(notes, 0.0);
    MergeTies(WithGates(notes, 0.0))
  }

  lemma WithGatesTies(ns: seq<Note>, g: real)
    ensures TiesClosed(ns) ==> TiesClosed(WithGates(ns, g))
    ensures AllOk(ns) ==> AllOk(WithGates(ns, g))
    ensures forall tc :: ToneFit(ns, tc) ==> ToneFit(WithGates(ns, g), tc)
  {
  }

  lemma {:induction false} WithGatesSumSec(ns: seq<Note>, g: real)
    ensures SumSec(WithGates(ns, g)) == SumSec(ns)
    decreases |ns|
  {
    if ns != [] {
      var r := WithGates(ns, g);
      var t := WithGates(ns[1..], g + ns[0].sec);
      forall j | 0 <= j < |ns| - 1
        ensures r[1..][j] == t[j]
      {
        assert ns[..j + 1][1..] == ns[1..][..j];
      }
      assert r[1..] == t;
      WithGatesSumSec(ns[1..], g + ns[0].sec);
    }
  }

  /** Merging ties keeps every note in range: a merged note has its first
      note's key, data and quantity and the run's summed seconds. */
  lemma {:induction false} MergeTiesFit(ns: seq<Note>, tc: int)
    requires TiesClosed(ns) && AllOk(ns)
    ensures AllOk(MergeTies(ns))
    ensures ToneFit(ns, tc) ==> ToneFit(MergeTies(ns), tc)
    decreases |ns|
  {
    if ns != [] {
      if !ns[0].tied {
        assert AllOk(ns[1..]) && (ToneFit(ns, tc) ==> ToneFit(ns[1..], tc));
        MergeTiesFit(ns[1..], tc);
      } else {
        var k := TiedPrefix(ns);
        SumSecNonneg(ns[..k + 1]);
        assert AllOk(ns[k + 1..]) && (ToneFit(ns, tc) ==> ToneFit(ns[k + 1..], tc));
        MergeTiesFit(ns[k + 1..], tc);
      }
    }
  }

  /** The rendered notes keep the ranges and the total seconds. */
  lemma RenderedNotesFacts(notes: seq<Note>, tc: int)
    requires TiesClosed(notes) && AllOk(notes)
    ensures AllOk(RenderedNotes(notes)) && SumSec(RenderedNotes(notes)) == SumSec(notes)
    ensures ToneFit(notes, tc) ==> ToneFit(RenderedNotes(notes), tc)
  {
    WithGatesTies(notes, 0.0);
    WithGatesSumSec(notes, 0.0);
    MergeTiesFit(WithGates(notes, 0.0), tc);
    MergeTiesTotals(WithGates(notes, 0.0));
  }

  /** uint32_t((goal + 1) * SAMPLERATE * 2), rounded up to even: the
      samples of the phrase's buffer. */
  function BufferSize(goal: real): (size: nat)
    requires goal >= 0.0
    ensures size % 2 == 0
    ensures (goal + 1.0) * 88200.0 - 1.0 < size as real <= (goal + 1.0) * 88200.0 + 1.0
  {
    var s := Trunc((goal + 1.0) * 44100.0 * 2.0);
    if s % 2 != 0 then s + 1 else s
  }

  /** The state realize starts each branch from. */
  function Start(fm: bool, setting: SoundSetting, toneTable: seq<Timbre>, lfo0: LfoState,
                 actions: seq<(real, int)>): Rendered
    requires fm ==> |toneTable| > 0
  {
    var init := [ChipInit(CLOCK, SAMPLERATE), ChipReset];
    if fm then Rendered(init + [SetTimbre(0)], 0, lfo0, toneTable[0], actions)
    else Rendered(init + [SetToneOrNoise(TONE_MODE)], 0, lfo0, setting.timbre, actions)
  }

  /** What realize does with a phrase's notes, from the first chip event
      to the last. */
  function Realized(setting: SoundSetting, notes: seq<Note>, toneTable: seq<Timbre>, lfo0: LfoState,
                    actions: seq<(real, int)>): Rendered
    requires TiesClosed(notes) && AllOk(notes) && (setting.fm ==> |toneTable| > 0 && ToneFit(notes, |toneTable|))
  {
    RenderedNotesFacts(notes, |toneTable|);
    var r := Start(setting.fm, setting, toneTable, lfo0, actions);
    if setting.fm then FmRender(r, RenderedNotes(notes), toneTable) else SsgRender(r, RenderedNotes(notes))
  }

  /** The buffer realize allocates holds every frame it mixes: the notes
      never run past (goal + 1) seconds of stereo samples, goal being the
      phrase's total seconds. The SSG branch schedules the special actions
      of the rendered notes, in order, and the FM branch none. */
  lemma RealizeFitsBuffer(setting: SoundSetting, notes: seq<Note>, toneTable: seq<Timbre>, lfo0: LfoState,
                          actions: seq<(real, int)>)
    requires TiesClosed(notes) && AllOk(notes) && (setting.fm ==> |toneTable| > 0 && ToneFit(notes, |toneTable|))
    ensures SumSec(notes) >= 0.0
    ensures var out := Realized(setting, notes, toneTable, lfo0, actions);
            MixesWithin(out.events, 0, BufferSize(SumSec(notes))) && 2 * out.isample <= BufferSize(SumSec(notes))
            && out.actions == actions + (if setting.fm then [] else SpecialActions(RenderedNotes(notes)))
  {
    SumSecNonneg(notes);
    RenderedNotesFacts(notes, |toneTable|);
    var ns := RenderedNotes(notes);
    var r := Start(setting.fm, setting, toneTable, lfo0, actions);
    var out := Realized(setting, notes, toneTable, lfo0, actions);
    if setting.fm {
      FmRenderFrames(r, ns, toneTable);
    } else {
      SsgRenderFrames(r, ns);
    }
    FramesBound(setting.fm, ns);
    var size := BufferSize(SumSec(notes));
    assert 2 * out.isample <= size;
    NoMixes(r.events);
    assert out.events == r.events + out.events[|r.events|..];
    MixesWithinWiden(out.events[|r.events|..], 0, 2 * out.isample, 0, size);
    MixesWithinAppend(r.events, out.events[|r.events|..], 0, size);
  }

  /** A note is rendered the same whatever the log before it. */
  lemma FmNoteShift(r: Rendered, n: Note, toneTable: seq<Timbre>)
    requires NoteOk(n) && (n.key == KEY_TONE ==> 0 <= n.data < |toneTable|)
    ensures var o := FmNote(r.(events := []), n, toneTable); FmNote(r, n, toneTable) == o.(events := r.events + o.events)
  {
    if !FmMarker(n.key) {
      assert r.events + FmSoundEvents(r.isample, n, KeyOnLfo(r.lfo, r.timbre, n))
          == r.events + ([] + FmSoundEvents(r.isample, n, KeyOnLfo(r.lfo, r.timbre, n)));
    }
  }

  lemma SsgNoteShift(r: Rendered, n: Note)
    requires NoteOk(n)
    ensures var o := SsgNote(r.(events := []), n); SsgNote(r, n) == o.(events := r.events + o.events)
  {
    if !SsgMarker(n.key) {
      assert r.events + SsgSoundEvents(r.isample, n) == r.events + ([] + SsgSoundEvents(r.isample, n));
    }
  }

  // ---------------------------------------------------------------------------
  // The rendering loops

  /** The YM2203 and the player's write_reg as realize drives them: every
      call is recorded, in order. */
  class Chip {
    var events: seq<Event>

    constructor ()
      ensures events == []
    {
      events := [];
    }

    method Emit(e: Event)
      modifies this
      ensures events == old(events) + [e]
    {
      events := events + [e];
    }
  }

  /** The `while (nsamples)` loop of the FM branch. */
  method MixChunks(chip: Chip, lc: LfoCtrl, isample: int, n: nat, keyed: bool, volume: int, octave: int, key: int)
    returns (next: int)
    modifies chip, lc
    ensures var c := FmChunks(isample, n, keyed, volume, octave, key, old(lc.State()));
            chip.events == old(chip.events) + c.events && lc.State() == c.lfo
    ensures next == isample + n
  {
    ghost var c0 := FmChunks(isample, n, keyed, volume, octave, key, lc.State());
    ghost var done: seq<Event> := [];
    next := isample;
    var nsamples: nat := n;
    while nsamples != 0
      invariant next + nsamples == isample + n
      invariant chip.events == old(chip.events) + done
      invariant var c := FmChunks(next, nsamples, keyed, volume, octave, key, lc.State());
                c0 == Chunked(done + c.events, c.lfo)
      decreases nsamples
    {
      next, nsamples, done := MixChunk(chip, lc, next, nsamples, keyed, volume, octave, key, c0, old(chip.events), done);
    }
  }

  /** One pass of MixChunks' loop, carrying its invariant from one pass to the next. */
  method MixChunk(chip: Chip, lc: LfoCtrl, isample: int, n: nat, keyed: bool, volume: int, octave: int, key: int,
                  ghost c0: Chunked, ghost base: seq<Event>, ghost done: seq<Event>)
    returns (next: int, rest: nat, ghost done': seq<Event>)
    modifies chip, lc
    requires n != 0 && chip.events == base + done
    requires var c := FmChunks(isample, n, keyed, volume, octave, key, lc.State());
             c0 == Chunked(done + c.events, c.lfo)
    ensures next + rest == isample + n && rest < n
    ensures chip.events == base + done'
    ensures var c := FmChunks(next, rest, keyed, volume, octave, key, lc.State());
            c0 == Chunked(done' + c.events, c.lfo)
  {
    var unit := UNIT;
    if unit > n {
      unit := n;
    }
    ChunksInvariantStep(c0, done, isample, n, keyed, volume, octave, key, lc.State());
    MixPass(chip, lc, isample, unit, keyed, volume, octave, key);
    ghost var pass := PassEvents(isample, unit, keyed, volume, octave, key, lc.State());
    next, rest := isample + unit, n - unit;
    done' := done + pass;
  }

  /** One pass of the `while (nsamples)` loop. */
  method MixPass(chip: Chip, lc: LfoCtrl, isample: int, unit: int, keyed: bool, volume: int, octave: int, key: int)
    modifies chip, lc
    ensures lc.State() == (if keyed then Tick(old(lc.State())) else old(lc.State()))
    ensures chip.events == old(chip.events) + PassEvents(isample, unit, keyed, volume, octave, key, lc.State())
  {
    chip.Emit(Mix(2 * isample, unit));
    if keyed {
      lc.Increment();
      chip.Emit(LfoVolume(volume, lc.State()));
      chip.Emit(LfoPitch(octave, key, lc.State()));
    }
  }

  /** The body of the FM branch's note loop. */
  method FmNoteStep(phrase: Phrase, chip: Chip, lc: LfoCtrl, note: Note, isample: int, toneTable: seq<Timbre>)
    returns (next: int)
    modifies phrase, chip, lc
    requires NoteOk(note) && (note.key == KEY_TONE ==> 0 <= note.data < |toneTable|)
    ensures var out := FmNote(Rendered([], isample, old(lc.State()), old(phrase.setting.timbre), old(phrase.actions)),
                              note, toneTable);
            chip.events == old(chip.events) + out.events && next == out.isample && lc.State() == out.lfo
            && phrase.setting == old(phrase.setting).(timbre := out.timbre)
    ensures phrase.notes == old(phrase.notes) && phrase.goal == old(phrase.goal) && phrase.actions == old(phrase.actions)
  {
    next := isample;
    if note.key == KEY_TONE {
      var t := toneTable[note.data];
      phrase.SetSetting(phrase.setting.(timbre := t));
      chip.Emit(SetTimbre(note.data));
      lc.InitForTimbre(t);
    } else if note.key == KEY_REG {
      chip.Emit(RegWrite(note.reg, note.data));
    } else if note.key == KEY_ENVELOP_INTERVAL {
      chip.Emit(RegWrite(ADDR_SSG_ENV_FREQ_L, note.data % 256));
      chip.Emit(RegWrite(ADDR_SSG_ENV_FREQ_H, (note.data / 256) % 256));
    } else if note.key == KEY_ENVELOP_TYPE {
      chip.Emit(RegWrite(ADDR_SSG_ENV_TYPE, note.data % 16));
    } else {
      next := FmSoundStep(chip, lc, note, isample, phrase.setting.timbre);
      assert [] + FmSoundEvents(isample, note, KeyOnLfo(old(lc.State()), phrase.setting.timbre, note))
          == FmSoundEvents(isample, note, KeyOnLfo(old(lc.State()), phrase.setting.timbre, note));
    }
  }

  /** The FM branch for a note that is not a marker: key on, the chunk
      loop, key off and the tail. */
  method FmSoundStep(chip: Chip, lc: LfoCtrl, note: Note, isample: int, timbre: Timbre) returns (next: int)
    modifies chip, lc
    requires NoteOk(note)
    ensures var lfo1 := KeyOnLfo(old(lc.State()), timbre, note);
            chip.events == old(chip.events) + FmSoundEvents(isample, note, lfo1)
            && lc.State() == FmChunks(isample, SoundSamples(note), note.key != KEY_REST && note.key != KEY_SPECIAL_REST,
                                      CInt(note.volume), note.octave, note.key, lfo1).lfo
            && next == isample + SoundSamples(note) + TailSamples(note)
  {
    ghost var e0 := chip.events;
    ghost var lfo1 := KeyOnLfo(lc.State(), timbre, note);
    ghost var keyed := note.key != KEY_REST && note.key != KEY_SPECIAL_REST;
    ghost var c := FmChunks(isample, SoundSamples(note), keyed, CInt(note.volume), note.octave, note.key, lfo1);
    KeyOnStep(chip, lc, note, timbre);
    next := MixChunks(chip, lc, isample, SoundSamples(note), note.key != KEY_REST && note.key != KEY_SPECIAL_REST,
                      CInt(note.volume), note.octave, note.key);
    TailStep(chip, note, next);
    ghost var k, t := KeyOnEvents(note), FmTailEvents(isample + SoundSamples(note), note);
    assert chip.events == e0 + k + c.events + t;
    assert FmSoundEvents(isample, note, lfo1) == k + c.events + t;
    Regroup(e0, k, c.events, t);
    next := next + TailSamples(note);
  }

  lemma Regroup(e: seq<Event>, a: seq<Event>, b: seq<Event>, c: seq<Event>)
    ensures e + a + b + c == e + (a + b + c)
  {
    assert e + a + b + c == e + (a + b) + c;
  }

  /** The key-on half of a sounding FM note, and init_for_keyon. */
  method KeyOnStep(chip: Chip, lc: LfoCtrl, note: Note, timbre: Timbre)
    modifies chip, lc
    ensures chip.events == old(chip.events) + KeyOnEvents(note) && lc.State() == KeyOnLfo(old(lc.State()), timbre, note)
  {
    if note.key != KEY_SPECIAL_REST {
      if note.key != KEY_REST {
        chip.Emit(SetPitch(note.octave, note.key));
        chip.Emit(SetVolume(CInt(note.volume)));
        chip.Emit(NoteOn);
      }
      lc.InitForKeyOn(timbre);
    }
  }

  /** After the chunk loop of an FM note: the clock, key off and the tail,
      at most SAMPLERATE frames of it mixed. */
  method TailStep(chip: Chip, note: Note, isample: int)
    modifies chip
    requires NoteOk(note)
    ensures chip.events == old(chip.events) + FmTailEvents(isample, note)
  {
    chip.Emit(Count(SoundUs(note)));
    var nsamples := TailSamples(note);
    if note.key != KEY_SPECIAL_REST {
      chip.Emit(NoteOff);
    }
    var unit := SAMPLERATE;
    if unit > nsamples {
      unit := nsamples;
    }
    chip.Emit(Mix(2 * isample, unit));
    chip.Emit(Count(TailUs(note)));
  }

  /** The body of the SSG branch's note loop. */
  method SsgNoteStep(phrase: Phrase, chip: Chip, note: Note, isample: int) returns (next: int)
    modifies phrase, chip
    requires NoteOk(note)
    ensures var out := SsgNote(Rendered([], isample, LfoState(0, 0, 0, 0), old(phrase.setting.timbre), old(phrase.actions)), note);
            chip.events == old(chip.events) + out.events && next == out.isample && phrase.actions == out.actions
    ensures phrase.notes == old(phrase.notes) && phrase.goal == old(phrase.goal) && phrase.setting == old(phrase.setting)
  {
    next := isample;
    if note.key == KEY_SPECIAL_ACTION {
      phrase.ScheduleSpecialAction(note.gate, note.data);
      return;
    }
    if note.key == KEY_REG {
      chip.Emit(RegWrite(note.reg, note.data));
      return;
    }
    if note.key == KEY_ENVELOP_INTERVAL {
      chip.Emit(RegWrite(ADDR_SSG_ENV_FREQ_L, note.data % 256));
      chip.Emit(RegWrite(ADDR_SSG_ENV_FREQ_H, (note.data / 256) % 256));
      return;
    }
    if note.key == KEY_ENVELOP_TYPE {
      chip.Emit(RegWrite(ADDR_SSG_ENV_TYPE, note.data % 16));
      return;
    }
    next := SsgSoundStep(chip, note, isample);
  }

  /** The SSG branch's key on, sounding part, key off and tail. */
  method SsgSoundStep(chip: Chip, note: Note, isample: int) returns (next: int)
    modifies chip
    requires NoteOk(note)
    ensures chip.events == old(chip.events) + SsgSoundEvents(isample, note)
    ensures next == isample + SoundSamples(note) + TailSamples(note)
  {
    ghost var e0 := chip.events;
    if note.key != KEY_REST && note.key != KEY_SPECIAL_REST {
      chip.Emit(SetPitch(note.octave, note.key));
      chip.Emit(SetVolume(CInt(note.volume)));
      chip.Emit(NoteOn);
    }
    ghost var e1 := chip.events;
    assert e1 == e0 + KeyOnEvents(note);
    var nsamples := SoundSamples(note);
    chip.Emit(Mix(2 * isample, nsamples));
    chip.Emit(Count(SoundUs(note)));
    next := isample + nsamples;
    nsamples := TailSamples(note);
    ghost var e2 := chip.events;
    if note.key != KEY_SPECIAL_REST {
      chip.Emit(NoteOff);
    }
    assert chip.events == e2 + KeyOffEvents(note);
    chip.Emit(Mix(2 * next, nsamples));
    chip.Emit(Count(TailUs(note)));
    next := next + nsamples;
    Regroup(e0, KeyOnEvents(note), [Mix(2 * isample, SoundSamples(note)), Count(SoundUs(note))], KeyOffEvents(note));
    Regroup(e0, KeyOnEvents(note) + [Mix(2 * isample, SoundSamples(note)), Count(SoundUs(note))] + KeyOffEvents(note),
            [Mix(2 * (isample + SoundSamples(note)), TailSamples(note))], [Count(TailUs(note))]);
  }

  /** The note loop of the FM branch, from the state `r0` the chip, the
      LFO and the phrase are in. */
  method RenderFmNotes(phrase: Phrase, chip: Chip, lc: LfoCtrl, toneTable: seq<Timbre>,
                       ghost base: seq<Event>, ghost r0: Rendered)
    modifies phrase, chip, lc
    requires AllOk(phrase.notes) && ToneFit(phrase.notes, |toneTable|)
    requires chip.events == base + r0.events && r0.isample == 0 && r0.lfo == lc.State()
    requires r0.timbre == phrase.setting.timbre && r0.actions == phrase.actions
    ensures var out := FmRender(r0, old(phrase.notes), toneTable);
            chip.events == base + out.events && phrase.actions == out.actions
            && phrase.setting == old(phrase.setting).(timbre := out.timbre)
    ensures phrase.notes == old(phrase.notes) && phrase.goal == old(phrase.goal)
  {
    var ns := phrase.notes;
    var isample := 0;
    ghost var cur := r0;
    var i := 0;
    while i < |ns|
      invariant 0 <= i <= |ns| && phrase.notes == ns && phrase.goal == old(phrase.goal)
      invariant chip.events == base + cur.events && cur.isample == isample && cur.lfo == lc.State()
      invariant cur.timbre == phrase.setting.timbre && cur.actions == phrase.actions
      invariant phrase.setting == old(phrase.setting).(timbre := cur.timbre)
      invariant FmRender(cur, ns[i..], toneTable) == FmRender(r0, ns, toneTable)
    {
      isample, cur := FmLoopBody(phrase, chip, lc, toneTable, ns, i, isample, base, cur);
      i := i + 1;
    }
    assert ns[i..] == [];
  }

  /** One pass of the FM note loop, in terms of the render functions. */
  lemma FmLoopStep(cur: Rendered, ns: seq<Note>, i: nat, toneTable: seq<Timbre>)
    requires i < |ns| && AllOk(ns) && ToneFit(ns, |toneTable|)
    ensures NoteOk(ns[i]) && (ns[i].key == KEY_TONE ==> 0 <= ns[i].data < |toneTable|)
    ensures AllOk(ns[i..]) && ToneFit(ns[i..], |toneTable|)
    ensures AllOk(ns[i + 1..]) && ToneFit(ns[i + 1..], |toneTable|)
    ensures FmRender(cur, ns[i..], toneTable) == FmRender(FmNote(cur, ns[i], toneTable), ns[i + 1..], toneTable)
    ensures var o := FmNote(cur.(events := []), ns[i], toneTable);
            FmNote(cur, ns[i], toneTable) == o.(events := cur.events + o.events)
  {
    assert ns[i..][0] == ns[i] && ns[i..][1..] == ns[i + 1..];
    FmNoteShift(cur, ns[i], toneTable);
  }

  /** One pass of the SSG note loop, in terms of the render functions. */
  lemma SsgLoopStep(cur: Rendered, ns: seq<Note>, i: nat)
    requires i < |ns| && AllOk(ns)
    ensures NoteOk(ns[i]) && AllOk(ns[i..]) && AllOk(ns[i + 1..])
    ensures SsgRender(cur, ns[i..]) == SsgRender(SsgNote(cur, ns[i]), ns[i + 1..])
    ensures var o := SsgNote(cur.(events := []), ns[i]);
            SsgNote(cur, ns[i]) == o.(events := cur.events + o.events)
  {
    assert ns[i..][0] == ns[i] && ns[i..][1..] == ns[i + 1..];
    SsgNoteShift(cur, ns[i]);
  }

  /** The body of the FM note loop: one note rendered, and the render of the
      remaining notes unchanged. */
  method FmLoopBody(phrase: Phrase, chip: Chip, lc: LfoCtrl, toneTable: seq<Timbre>, ns: seq<Note>, i: nat,
                    isample: int, ghost base: seq<Event>, ghost cur: Rendered)
    returns (isample': int, ghost cur': Rendered)
    modifies phrase, chip, lc
    requires i < |ns| && AllOk(ns) && ToneFit(ns, |toneTable|)
    requires chip.events == base + cur.events && cur.isample == isample && cur.lfo == lc.State()
    requires cur.timbre == phrase.setting.timbre && cur.actions == phrase.actions
    ensures cur' == FmNote(cur, ns[i], toneTable)
    ensures chip.events == base + cur'.events && cur'.isample == isample' && cur'.lfo == lc.State()
    ensures cur'.timbre == phrase.setting.timbre && cur'.actions == phrase.actions
    ensures phrase.setting == old(phrase.setting).(timbre := cur'.timbre)
    ensures phrase.notes == old(phrase.notes) && phrase.goal == old(phrase.goal)
    ensures AllOk(ns[i..]) && ToneFit(ns[i..], |toneTable|) && AllOk(ns[i + 1..]) && ToneFit(ns[i + 1..], |toneTable|)
    ensures FmRender(cur', ns[i + 1..], toneTable) == FmRender(cur, ns[i..], toneTable)
  {
    FmLoopStep(cur, ns, i, toneTable);
    ghost var events := chip.events;
    isample' := FmNoteStep(phrase, chip, lc, ns[i], isample, toneTable);
    ghost var o := FmNote(cur.(events := []), ns[i], toneTable);
    assert chip.events == base + (cur.events + o.events) by {
      assert chip.events == events + o.events;
    }
    cur' := FmNote(cur, ns[i], toneTable);
  }

  /** The body of the SSG note loop. */
  method SsgLoopBody(phrase: Phrase, chip: Chip, ns: seq<Note>, i: nat,
                     isample: int, ghost base: seq<Event>, ghost cur: Rendered)
    returns (isample': int, ghost cur': Rendered)
    modifies phrase, chip
    requires i < |ns| && AllOk(ns)
    requires chip.events == base + cur.events && cur.isample == isample
    requires cur.timbre == phrase.setting.timbre && cur.actions == phrase.actions
    ensures cur' == SsgNote(cur, ns[i])
    ensures chip.events == base + cur'.events && cur'.isample == isample'
    ensures cur'.timbre == cur.timbre && cur'.lfo == cur.lfo && cur'.actions == phrase.actions
    ensures phrase.setting == old(phrase.setting)
    ensures phrase.notes == old(phrase.notes) && phrase.goal == old(phrase.goal)
    ensures AllOk(ns[i..]) && AllOk(ns[i + 1..])
    ensures SsgRender(cur', ns[i + 1..]) == SsgRender(cur, ns[i..])
  {
    SsgLoopStep(cur, ns, i);
    ghost var events := chip.events;
    isample' := SsgNoteStep(phrase, chip, ns[i], isample);
    ghost var o := SsgNote(cur.(events := []), ns[i]);
    assert chip.events == base + (cur.events + o.events) by {
      assert chip.events == events + o.events;
    }
    cur' := SsgNote(cur, ns[i]);
  }

  /** The note loop of the SSG branch. */
  method RenderSsgNotes(phrase: Phrase, chip: Chip, ghost base: seq<Event>, ghost r0: Rendered)
    modifies phrase, chip
    requires AllOk(phrase.notes)
    requires chip.events == base + r0.events && r0.isample == 0
    requires r0.timbre == phrase.setting.timbre && r0.actions == phrase.actions
    ensures var out := SsgRender(r0, old(phrase.notes));
            chip.events == base + out.events && phrase.actions == out.actions
    ensures phrase.notes == old(phrase.notes) && phrase.goal == old(phrase.goal) && phrase.setting == old(phrase.setting)
  {
    var ns := phrase.notes;
    var isample := 0;
    ghost var cur := r0;
    var i := 0;
    while i < |ns|
      invariant 0 <= i <= |ns| && phrase.notes == ns && phrase.goal == old(phrase.goal)
      invariant chip.events == base + cur.events && cur.isample == isample
      invariant cur.timbre == r0.timbre && cur.lfo == r0.lfo && cur.actions == phrase.actions
      invariant phrase.setting == old(phrase.setting)
      invariant SsgRender(cur, ns[i..]) == SsgRender(r0, ns)
    {
      isample, cur := SsgLoopBody(phrase, chip, ns, i, isample, base, cur);
      i := i + 1;
    }
    assert ns[i..] == [];
  }

  /** calc_total then rescan_notes, at the start of realize. */
  method Prepare(phrase: Phrase, ghost tc: int)
    modifies phrase
    requires TiesClosed(phrase.notes) && AllOk(phrase.notes)
    ensures phrase.notes == RenderedNotes(old(phrase.notes)) && phrase.goal == SumSec(old(phrase.notes))
    ensures phrase.goal >= 0.0 && AllOk(phrase.notes) && (ToneFit(old(phrase.notes), tc) ==> ToneFit(phrase.notes, tc))
    ensures phrase.setting == old(phrase.setting) && phrase.actions == old(phrase.actions)
  {
    RenderedNotesFacts(phrase.notes, tc);
    SumSecNonneg(phrase.notes);
    WithGatesTies(phrase.notes, 0.0);
    phrase.CalcTotal();
    phrase.RescanNotes();
  }

  /** VskPhrase::realize: gates and ties as calc_total and rescan_notes
      leave them, the buffer size, and the chip driven through the notes.
      `lfo0` is what the LFO's fields hold before the first tone change. */
  method Realize(phrase: Phrase, chip: Chip, toneTable: seq<Timbre>, lfo0: LfoState) returns (size: nat)
    modifies phrase, chip
    requires TiesClosed(phrase.notes) && AllOk(phrase.notes)
    requires phrase.setting.fm ==> |toneTable| > 0 && ToneFit(phrase.notes, |toneTable|)
    ensures phrase.notes == RenderedNotes(old(phrase.notes)) && phrase.goal == SumSec(old(phrase.notes))
    ensures phrase.goal >= 0.0 && size == BufferSize(phrase.goal)
    ensures var out := Realized(old(phrase.setting), old(phrase.notes), toneTable, lfo0, old(phrase.actions));
            chip.events == old(chip.events) + out.events && phrase.actions == out.actions
            && phrase.setting == old(phrase.setting).(timbre := out.timbre)
  {
    ghost var base := chip.events;
    ghost var notes0, s0, a0 := phrase.notes, phrase.setting, phrase.actions;
    Prepare(phrase, |toneTable|);
    chip.Emit(ChipInit(CLOCK, SAMPLERATE));
    chip.Emit(ChipReset);
    size := BufferSize(phrase.goal);
    if phrase.setting.fm {
      phrase.SetSetting(phrase.setting.(timbre := toneTable[0]));
      chip.Emit(SetTimbre(0));
      var lc := new LfoCtrl(lfo0);
      RenderFmNotes(phrase, chip, lc, toneTable, base, Start(true, s0, toneTable, lfo0, a0));
    } else {
      chip.Emit(SetToneOrNoise(TONE_MODE));
      RenderSsgNotes(phrase, chip, base, Start(false, s0, toneTable, lfo0, a0));
      SsgRenderKeeps(Start(false, s0, toneTable, lfo0, a0), RenderedNotes(notes0));
    }
  }
}
