/** soundplayer.h / soundplayer.cpp: the note and setting data model, note
    durations, the letter-to-semitone mapping, tie merging and gates. */
module Notes {
  import opened Base

  /** SpecialKeys: marker keys, all negative. */
  const KEY_REST: int := -1
  const KEY_SPECIAL_ACTION: int := -2
  const KEY_TONE: int := -3
  const KEY_SPECIAL_REST: int := -4
  const KEY_REG: int := -5
  const KEY_ENVELOP_INTERVAL: int := -6
  const KEY_ENVELOP_TYPE: int := -7

  /** Semitone numbers of YM2203.h. */
  const KEY_C: int := 0
  const KEY_B: int := 11
  const KEY_NUM: int := 12

  predicate IsSpecialKey(k: int)
  {
    k == KEY_REST || k == KEY_SPECIAL_ACTION || k == KEY_TONE || k == KEY_SPECIAL_REST
    || k == KEY_REG || k == KEY_ENVELOP_INTERVAL || k == KEY_ENVELOP_TYPE
  }

  /** The seven special keys are pairwise distinct and none is a semitone. */
  lemma SpecialKeysDisjoint(k: int)
    ensures IsSpecialKey(k) ==> !(KEY_C <= k <= KEY_B)
    ensures |{KEY_REST, KEY_SPECIAL_ACTION, KEY_TONE, KEY_SPECIAL_REST,
              KEY_REG, KEY_ENVELOP_INTERVAL, KEY_ENVELOP_TYPE}| == 7
  {
  }

  /** YM2203_Timbre: the FM voice parameters the register layer and the LFO
      read (the header defining the structure is not part of this model; these
      are the fields the shown code uses). Per-operator fields hold 4 values. */
  datatype Timbre = Timbre(
    opMask: int, algorithm: int, feedback: int,
    tl: seq<int>, ar: seq<int>, dr: seq<int>, sr: seq<int>, sl: seq<int>, rr: seq<int>,
    detune: seq<int>, multiple: seq<int>, keyScale: seq<int>,
    waveForm: int, speed: int, sync: bool, pmd: int, pms: int, amd: int, ams: seq<int>)
  {
    ghost predicate Valid()
    {
      |tl| == 4 && |ar| == 4 && |dr| == 4 && |sr| == 4 && |sl| == 4 && |rr| == 4
      && |detune| == 4 && |multiple| == 4 && |keyScale| == 4 && |ams| == 4
    }
  }

  /** VskSoundSetting. */
  datatype SoundSetting = SoundSetting(
    tempo: int, octave: int, length: real, timbre: Timbre,
    fm: bool, volume: real, quantity: int, tone: int)

  /** The VskSoundSetting constructor with its default arguments; the initial
      timbre comes from YM2203_Timbre's own constructor, which is not shown, so
      it is a parameter. */
  function NewSetting(timbre: Timbre, tempo: int := 120, octave: int := 4 - 1,
                      length: real := 24.0, tone: int := 0, fm: bool := false): SoundSetting
  {
    SoundSetting(tempo, octave, length, timbre, fm, 8.0, 8, tone)
  }

  /** VskSoundSetting::reset: every field back to its default, except the
      timbre, which is left as it was. */
  function Reset(s: SoundSetting): (r: SoundSetting)
    ensures r == NewSetting(s.timbre)
  {
    s.(tempo := 120, octave := 3, length := 24.0, fm := false, volume := 8.0, quantity := 8, tone := 0)
  }

  lemma ResetIdempotent(s: SoundSetting)
    ensures Reset(Reset(s)) == Reset(s)
    ensures Reset(s).timbre == s.timbre
  {
  }

  /** VskNote. `gate` is not initialised by the constructor in the source;
      the model starts it at 0 and calc_total assigns it. */
  datatype Note = Note(
    tempo: int, octave: int, key: int, dot: bool, length: real, sign: char,
    sec: real, gate: real, volume: real, quantity: int, tied: bool, reg: int, data: int)

  /** VskNote::get_sec: 24 length units are a quarter note, `tempo` quarter
      notes per minute, a dot lengthens by half. */
  function GetSec(tempo: int, length: real, dot: bool): real
    requires tempo != 0
  {
    if dot then length * (60.0 * 1.5 / 24.0) / tempo as real
    else length * (60.0 / 24.0) / tempo as real
  }

  /** A quarter note lasts 60/tempo seconds and a dotted one half as long again;
      seconds add up as lengths do. */
  lemma GetSecProperties(tempo: int, l1: real, l2: real)
    requires tempo != 0
    ensures GetSec(tempo, 24.0, false) == 60.0 / tempo as real
    ensures GetSec(tempo, l1, true) == 1.5 * GetSec(tempo, l1, false)
    ensures GetSec(tempo, l1 + l2, false) == GetSec(tempo, l1, false) + GetSec(tempo, l2, false)
    ensures GetSec(tempo, l1 + l2, true) == GetSec(tempo, l1, true) + GetSec(tempo, l2, true)
  {
  }

  /** The key string of set_key_from_char: a letter's index is its semitone. */
  const KEYS: string := "C+D+EF+G+A+B"

  /** The characters the note constructor accepts: the seven letters, the
      marker characters and 0. */
  predicate IsNoteChar(ch: char)
  {
    ch in "CDEFGAB" || ch in "R@WYMSX" || ch == NUL
  }

  /** The position of a letter in KEYS, which is what strchr finds there. */
  function NaturalKey(ch: char): (k: int)
    requires ch in "CDEFGAB"
    ensures 0 <= k < |KEYS| && KEYS[k] == ch
    ensures forall j :: 0 <= j < k ==> KEYS[j] != ch
  {
    match ch
    case 'C' => 0
    case 'D' => 2
    case 'E' => 4
    case 'F' => 5
    case 'G' => 7
    case 'A' => 9
    case 'B' => 11
  }

  /** VskNote::set_key_from_char, given the note's sign. */
  function KeyFromChar(ch: char, sign: char): (k: int)
    requires IsNoteChar(ch)
  {
    if ch == 'R' || ch == NUL then KEY_REST
    else if ch == '@' then KEY_TONE
    else if ch == 'W' then KEY_SPECIAL_REST
    else if ch == 'Y' then KEY_REG
    else if ch == 'M' then KEY_ENVELOP_INTERVAL
    else if ch == 'S' then KEY_ENVELOP_TYPE
    else if ch == 'X' then KEY_SPECIAL_ACTION
    else
      var natural := NaturalKey(ch);
      if sign == '+' || sign == '#' then (if natural == KEY_B then KEY_C else natural + 1)
      else if sign == '-' then (if natural == KEY_C then KEY_B else natural - 1)
      else natural
  }

  /** A letter's key is a semitone; a sharp raises and a flat lowers it by one
      semitone within the octave (B sharp is C, C flat is B); another sign
      character leaves it natural. The markers map to their special keys. */
  lemma KeyMapping(ch: char, sign: char)
    requires IsNoteChar(ch)
    ensures ch in "CDEFGAB" ==> KEY_C <= KeyFromChar(ch, sign) <= KEY_B
    ensures ch in "CDEFGAB" && (sign == '+' || sign == '#') ==>
              KeyFromChar(ch, sign) == (NaturalKey(ch) + 1) % KEY_NUM
    ensures ch in "CDEFGAB" && sign == '-' ==>
              KeyFromChar(ch, sign) == (NaturalKey(ch) + KEY_NUM - 1) % KEY_NUM
    ensures ch in "CDEFGAB" && sign != '+' && sign != '#' && sign != '-' ==>
              KeyFromChar(ch, sign) == NaturalKey(ch)
    ensures ch !in "CDEFGAB" ==> IsSpecialKey(KeyFromChar(ch, sign))
  {
  }

  /** The VskNote constructor: seconds from tempo, length and dot; key from the
      character and the sign. */
  function MakeNote(tempo: int, octave: int, ch: char, dot: bool, length: real, sign: char,
                    volume: real, quantity: int, tied: bool, reg: int, data: int): (n: Note)
    requires tempo != 0 && IsNoteChar(ch)
    ensures n.sec == GetSec(tempo, length, dot) && n.key == KeyFromChar(ch, sign)
    ensures n.tempo == tempo && n.octave == octave && n.length == length && n.dot == dot
  {
    Note(tempo, octave, KeyFromChar(ch, sign), dot, length, sign,
         GetSec(tempo, length, dot), 0.0, volume, quantity, tied, reg, data)
  }

  // ---------------------------------------------------------------------------
  // Tie merging (VskPhrase::rescan_notes)

  function SumLength(ns: seq<Note>): real
  {
    if ns == [] then 0.0 else ns[0].length + SumLength(ns[1..])
  }

  function SumSec(ns: seq<Note>): real
  {
    if ns == [] then 0.0 else ns[0].sec + SumSec(ns[1..])
  }

  function CountTied(ns: seq<Note>): nat
  {
    if ns == [] then 0 else (if ns[0].tied then 1 else 0) + CountTied(ns[1..])
  }

  /** The merge reads the note after every tied note, so the last note of a
      phrase must not be tied (otherwise the source reads past the vector). */
  predicate TiesClosed(ns: seq<Note>)
  {
    ns == [] || !ns[|ns| - 1].tied
  }

  /** The number of tied notes at the head. */
  function TiedPrefix(ns: seq<Note>): (k: nat)
    ensures k <= |ns|
    ensures forall j :: 0 <= j < k ==> ns[j].tied
    ensures k < |ns| ==> !ns[k].tied
    ensures TiesClosed(ns) && ns != [] ==> k < |ns|
  {
    if ns != [] && ns[0].tied then 1 + TiedPrefix(ns[1..]) else 0
  }

  /** rescan_notes: a maximal run of tied notes and the untied note after it
      become the first note of the run, whose length and seconds are the sums
      over the run (and whose tie flag stays set); other notes are copied. */
  function MergeTies(ns: seq<Note>): seq<Note>
    requires TiesClosed(ns)
    decreases |ns|
  {
    if ns == [] then []
    else if !ns[0].tied then [ns[0]] + MergeTies(ns[1..])
    else
      var k := TiedPrefix(ns);
      [MergedHead(ns[..k + 1])] + MergeTies(ns[k + 1..])
  }

  /** The note a tied run becomes: its first note, lasting the whole run. */
  function MergedHead(run: seq<Note>): Note
    requires run != []
  {
    run[0].(length := SumLength(run), sec := SumSec(run))
  }

  lemma {:induction false} SumsAppend(a: seq<Note>, b: seq<Note>)
    ensures SumLength(a + b) == SumLength(a) + SumLength(b)
    ensures SumSec(a + b) == SumSec(a) + SumSec(b)
    ensures CountTied(a + b) == CountTied(a) + CountTied(b)
  {
    if a == [] {
      assert a + b == b;
    } else {
      assert (a + b)[0] == a[0];
      assert (a + b)[1..] == a[1..] + b;
      SumsAppend(a[1..], b);
    }
  }

  lemma SumsSplit(ns: seq<Note>, m: nat)
    requires m <= |ns|
    ensures SumLength(ns) == SumLength(ns[..m]) + SumLength(ns[m..])
    ensures SumSec(ns) == SumSec(ns[..m]) + SumSec(ns[m..])
    ensures CountTied(ns) == CountTied(ns[..m]) + CountTied(ns[m..])
  {
    assert ns == ns[..m] + ns[m..];
    SumsAppend(ns[..m], ns[m..]);
  }

  lemma {:induction false} CountTiedAll(ns: seq<Note>)
    requires forall j :: 0 <= j < |ns| ==> ns[j].tied
    ensures CountTied(ns) == |ns|
  {
    if ns != [] {
      CountTiedAll(ns[1..]);
    }
  }

  lemma SuffixTiesClosed(ns: seq<Note>, m: nat)
    requires TiesClosed(ns) && m <= |ns|
    ensures TiesClosed(ns[m..])
  {
  }

  /** Merging ties removes exactly one note per tied note, and keeps the total
      length and the total duration. */
  lemma {:induction false} MergeTiesTotals(ns: seq<Note>)
    requires TiesClosed(ns)
    ensures |MergeTies(ns)| == |ns| - CountTied(ns)
    ensures SumLength(MergeTies(ns)) == SumLength(ns)
    ensures SumSec(MergeTies(ns)) == SumSec(ns)
    decreases |ns|
  {
    if ns == [] {
    } else if !ns[0].tied {
      ConsSums(ns[0], MergeTies(ns[1..]));
      MergeTiesTotals(ns[1..]);
    } else {
      var k := TiedPrefix(ns);
      RunCount(ns, k);
      SumsSplit(ns, k + 1);
      ConsSums(MergedHead(ns[..k + 1]), MergeTies(ns[k + 1..]));
      MergeTiesTotals(ns[k + 1..]);
    }
  }

  /** The sums of a note in front of a list. */
  lemma ConsSums(h: Note, rest: seq<Note>)
    ensures |[h] + rest| == 1 + |rest|
    ensures SumLength([h] + rest) == h.length + SumLength(rest)
    ensures SumSec([h] + rest) == h.sec + SumSec(rest)
  {
    assert ([h] + rest)[1..] == rest;
  }

  /** A tied run and the note closing it hold one tied note per note but the last. */
  lemma RunCount(ns: seq<Note>, k: nat)
    requires TiesClosed(ns) && ns != [] && k == TiedPrefix(ns)
    ensures k < |ns| && CountTied(ns[..k + 1]) == k
  {
    var run := ns[..k + 1];
    SumsSplit(run, k);
    assert run[..k] == ns[..k];
    CountTiedAll(ns[..k]);
    assert run[k..] == [ns[k]];
    assert [ns[k]][1..] == [];
  }

  /** A phrase without ties is left as it is. */
  lemma {:induction false} MergeWithoutTies(ns: seq<Note>)
    requires CountTied(ns) == 0
    ensures TiesClosed(ns) && MergeTies(ns) == ns
  {
    if ns != [] {
      MergeWithoutTies(ns[1..]);
      SumsSplit(ns, |ns| - 1);
      assert ns[|ns| - 1..] == [ns[|ns| - 1]];
    }
  }

  /** A second merge is not a no-op: the merged note keeps its tie flag, so it
      is merged again with the note after it. */
  lemma MergeTwiceDiffers(n: Note, m: Note, o: Note)
    requires n.tied && !m.tied && !o.tied
    ensures TiesClosed([n, m, o]) && TiesClosed(MergeTies([n, m, o]))
    ensures |MergeTies([n, m, o])| == 2 && MergeTies([n, m, o])[0].tied
    ensures |MergeTies(MergeTies([n, m, o]))| == 1
  {
    var ns := [n, m, o];
    assert ns[1..] == [m, o];
    assert TiedPrefix([m, o]) == 0;
    assert TiedPrefix(ns) == 1;
    assert ns[2..] == [o];
    assert [o][1..] == [];
    assert MergeTies([o]) == [o] + MergeTies([]);
    var once := MergeTies(ns);
    assert once == [MergedHead(ns[..2])] + [o];
    assert once[1..] == [o];
    assert TiedPrefix(once[1..]) == 0;
    assert TiedPrefix(once) == 1;
    assert once[2..] == [];
  }

  // ---------------------------------------------------------------------------
  // Gates (VskPhrase::calc_total)

  /** Every note's gate is `g` plus the seconds of the notes before it. */
  predicate GatedFrom(ns: seq<Note>, g: real)
    decreases |ns|
  {
    ns == [] || (ns[0].gate == g && GatedFrom(ns[1..], g + ns[0].sec))
  }

  /** calc_total's result: each note's gate set to the running sum of the
      seconds before it, nothing else changed. */
  function WithGates(ns: seq<Note>, g: real): (r: seq<Note>)
    ensures |r| == |ns|
    ensures forall j :: 0 <= j < |ns| ==> r[j] == ns[j].(gate := g + SumSec(ns[..j]))
  {
    seq(|ns|, j requires 0 <= j < |ns| => ns[j].(gate := g + SumSec(ns[..j])))
  }

  lemma {:induction false} WithGatesGated(ns: seq<Note>, g: real)
    ensures GatedFrom(WithGates(ns, g), g)
    decreases |ns|
  {
    if ns != [] {
      var r := WithGates(ns, g);
      var t := WithGates(ns[1..], g + ns[0].sec);
      forall j | 0 <= j < |ns| - 1
        ensures r[1..][j] == t[j]
      {
        assert ns[..j + 1] == [ns[0]] + ns[1..][..j];
        assert ns[..j + 1][1..] == ns[1..][..j];
      }
      assert r[1..] == t;
      WithGatesGated(ns[1..], g + ns[0].sec);
    }
  }

  lemma {:induction false} GatedDrop(ns: seq<Note>, g: real, m: nat)
    requires GatedFrom(ns, g) && m <= |ns|
    ensures GatedFrom(ns[m..], g + SumSec(ns[..m]))
    decreases m
  {
    if m > 0 {
      GatedDrop(ns[1..], g + ns[0].sec, m - 1);
      assert ns[1..][m - 1..] == ns[m..];
      assert ns[..m][1..] == ns[1..][..m - 1];
    }
  }

  /** Merging ties after computing gates keeps the gates consistent: every
      merged note still starts when the notes before it have ended. */
  lemma {:induction false} MergeKeepsGates(ns: seq<Note>, g: real)
    requires TiesClosed(ns) && GatedFrom(ns, g)
    ensures GatedFrom(MergeTies(ns), g)
    decreases |ns|
  {
    if ns != [] {
      if !ns[0].tied {
        MergeKeepsGates(ns[1..], g + ns[0].sec);
      } else {
        var k := TiedPrefix(ns);
        GatedDrop(ns, g, k + 1);
        MergeKeepsGates(ns[k + 1..], g + SumSec(ns[..k + 1]));
      }
    }
  }
}
