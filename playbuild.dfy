/** cmd_play.cpp: vsk_phrase_from_cmd_play_items, the CMD PLAY phrase
    builder, and the per-channel build/write-back loops of the
    vsk_sound_cmd_play_* functions. */
module PlayBuilder {
  import opened Base
  import opened Ast
  import opened Notes
  import opened Phrases
  import opened Settings
  import opened PlayText

  /** The function-static `r` of the `Y`/`,` case: the register number that
      `Y` latches survives from one item, phrase and call to the next. */
  class RegisterLatch {
    var r: int

    constructor ()
      ensures r == 0
    {
      r := 0;
    }

    method Latch(v: int)
      modifies this
      ensures r == v
    {
      r := v;
    }
  }

  /** `item.m_subcommand[0]`, the character the builder switches on. */
  function Command(item: PlayItem): char
  {
    At(item.subcommand, 0)
  }

  /** vsk_get_play_param followed by to_int: no node for an empty parameter,
      otherwise the evaluated integer. */
  function PlayArg(item: PlayItem): (p: Option<int>)
    ensures p.Some? <==> item.param != []
    ensures p.Some? ==> p.value == Atoi(item.param)
  {
    if item.param == [] then None else Some(EvalText(item.param).ToInt())
  }

  /** The item belongs to a tuplet whose length overrides its own. */
  predicate InTuplet(item: PlayItem)
  {
    item.pletCount > 1 && item.pletL != 0
  }

  /** A single letter of a controller that only changes the setting. */
  predicate IsController(c: char)
  {
    c in "VLQOT<>"
  }

  /** `T`: tempo 32..255, 120 when absent. */
  function SetTempo(s: SoundSetting, item: PlayItem): (o: Option<SoundSetting>)
    ensures o.Some? <==> item.param == [] || 32 <= Atoi(item.param) <= 255
    ensures o.Some? ==> o.value == s.(tempo := o.value.tempo) && 32 <= o.value.tempo <= 255
    ensures o.Some? ==> o.value.tempo == (if item.param == [] then 120 else Atoi(item.param))
  {
    var p := PlayArg(item);
    if p.None? then Some(s.(tempo := 120))
    else if 32 <= p.value <= 255 then Some(s.(tempo := p.value)) else None
  }

  /** `O`: octave 1..8, stored one lower; octave 4 when absent. */
  function SetOctave(s: SoundSetting, item: PlayItem): (o: Option<SoundSetting>)
    ensures o.Some? <==> item.param == [] || 1 <= Atoi(item.param) <= 8
    ensures o.Some? ==> o.value == s.(octave := o.value.octave) && 0 <= o.value.octave <= 7
    ensures o.Some? ==> o.value.octave + 1 == (if item.param == [] then 4 else Atoi(item.param))
  {
    var p := PlayArg(item);
    if p.None? then Some(s.(octave := 4 - 1))
    else if 1 <= p.value <= 8 then Some(s.(octave := p.value - 1)) else None
  }

  /** `L`: a 1/L note, L in 1..64, as 96/L length units (real division);
      a whole note when absent. */
  function SetLength(s: SoundSetting, item: PlayItem): (o: Option<SoundSetting>)
    ensures o.Some? <==> item.param == [] || 1 <= Atoi(item.param) <= 64
    ensures o.Some? ==> o.value == s.(length := o.value.length) && 0.0 < o.value.length <= 96.0
    ensures o.Some? && item.param == [] ==> o.value.length == 96.0
    ensures o.Some? && item.param != [] ==> o.value.length == 96.0 / Atoi(item.param) as real
  {
    var p := PlayArg(item);
    if p.None? then Some(s.(length := 24.0 * 4.0))
    else if 1 <= p.value <= 64 then
      var length := (24.0 * 4.0) / p.value as real;
      RealQuotient(24.0 * 4.0, p.value);
      Some(s.(length := length))
    else None
  }

  /** `Q`: quantity 0..8, 8 when absent. */
  function SetQuantity(s: SoundSetting, item: PlayItem): (o: Option<SoundSetting>)
    ensures o.Some? <==> item.param == [] || 0 <= Atoi(item.param) <= 8
    ensures o.Some? ==> o.value == s.(quantity := o.value.quantity) && 0 <= o.value.quantity <= 8
    ensures o.Some? ==> o.value.quantity == (if item.param == [] then 8 else Atoi(item.param))
  {
    var p := PlayArg(item);
    if p.None? then Some(s.(quantity := 8))
    else if 0 <= p.value <= 8 then Some(s.(quantity := p.value)) else None
  }

  /** `V`: volume 0..15, 8 when absent. */
  function SetVolume(s: SoundSetting, item: PlayItem): (o: Option<SoundSetting>)
    ensures o.Some? <==> item.param == [] || 0 <= Atoi(item.param) <= 15
    ensures o.Some? ==> o.value == s.(volume := o.value.volume) && 0.0 <= o.value.volume <= 15.0
    ensures o.Some? ==> o.value.volume == (if item.param == [] then 8 else Atoi(item.param)) as real
  {
    var p := PlayArg(item);
    if p.None? then Some(s.(volume := 8.0))
    else if 0 <= p.value <= 15 then Some(s.(volume := p.value as real)) else None
  }

  /** x / n is positive, at most x, and times n gives x back again. */
  lemma RealQuotient(x: real, n: int)
    requires 0.0 < x && 1 <= n
    ensures 0.0 < x / n as real <= x && (x / n as real) * n as real == x
  {
    assert x / n as real <= x by {
      assert x <= x * n as real;
    }
  }

  /** The commands that change only the setting: V, L, Q, O, T and the
      octave steps `<` and `>`, which fail at octave 0 and 8. */
  function ControlStep(s: SoundSetting, item: PlayItem): (o: Option<SoundSetting>)
    requires IsController(Command(item))
    ensures o.Some? ==> o.value.tempo == s.tempo || 32 <= o.value.tempo <= 255
    ensures Command(item) == '<' ==>
              (o.Some? <==> 0 < s.octave) && (o.Some? ==> o.value == s.(octave := s.octave - 1))
    ensures Command(item) == '>' ==>
              (o.Some? <==> s.octave < 8) && (o.Some? ==> o.value == s.(octave := s.octave + 1))
  {
    match Command(item)
    case 'T' => SetTempo(s, item)
    case 'O' => SetOctave(s, item)
    case 'L' => SetLength(s, item)
    case 'Q' => SetQuantity(s, item)
    case 'V' => SetVolume(s, item)
    case '<' => if 0 < s.octave then Some(s.(octave := s.octave - 1)) else None
    case '>' => if s.octave < 8 then Some(s.(octave := s.octave + 1)) else None
  }

  /** The tuplet rule applied to a length: inside a tuplet the length is a
      1/plet_L note divided among the tuplet's plet_count items, and a
      plet_L outside 1..64 fails. */
  function PletLength(item: PlayItem, length: real): (o: Option<real>)
    ensures o.Some? <==> !InTuplet(item) || 1 <= item.pletL <= 64
    ensures o.Some? && !InTuplet(item) ==> o.value == length
    ensures o.Some? && InTuplet(item) ==>
              0.0 < o.value && o.value * item.pletCount as real * item.pletL as real == 96.0
  {
    if InTuplet(item) then
      if 1 <= item.pletL <= 64 then
        RealQuotient(96.0, item.pletL);
        RealQuotient(96.0 / item.pletL as real, item.pletCount);
        Some((24.0 * 4.0) / item.pletL as real / item.pletCount as real)
      else None
    else Some(length)
  }

  /** The length of a C..B, R or @W note: an explicit length 1..64 gives the
      integer quotient 96 div L, no parameter the setting's length; the
      tuplet rule then applies. */
  function NoteLength(s: SoundSetting, item: PlayItem): (o: Option<real>)
    ensures o.Some? <==> (item.param == [] || 1 <= Atoi(item.param) <= 64)
                         && (!InTuplet(item) || 1 <= item.pletL <= 64)
    ensures o.Some? && !InTuplet(item) && item.param == [] ==> o.value == s.length
    ensures o.Some? && !InTuplet(item) && item.param != [] ==>
              o.value == (96 / Atoi(item.param)) as real
  {
    var p := PlayArg(item);
    if p.Some? && !(1 <= p.value <= 64) then None
    else PletLength(item, if p.Some? then (24 * 4 / p.value) as real else s.length)
  }

  /** What one item does: fail, or give the new setting, the new latch and
      the notes it appends. */
  datatype Step = Fail | Next(setting: SoundSetting, latch: int, added: seq<Note>)

  /** The `@`, `@V` and `@W` cases. */
  function AtStep(s: SoundSetting, r: int, item: PlayItem): (st: Step)
    requires s.tempo != 0 && Command(item) == '@'
    ensures st.Next? ==> st.latch == r && st.setting.tempo == s.tempo && |st.added| <= 1
    ensures item.subcommand == "@" ==>
              (st.Next? <==> item.param != [] && 0 <= Atoi(item.param) <= 61)
              && (st.Next? ==> st.setting == s.(tone := Atoi(item.param))
                               && st.added == [MarkerNote(s, '@', -1, Atoi(item.param))])
    ensures item.subcommand == "@V" ==>
              (st.Next? <==> item.param != [] && 0 <= Atoi(item.param) <= 127)
              && (st.Next? ==> st.added == [] && st.setting == s.(volume := st.setting.volume)
                               && 0.0 <= st.setting.volume <= 15.0
                               && st.setting.volume * 127.0 == 15.0 * Atoi(item.param) as real)
    ensures item.subcommand == "@W" ==>
              (st.Next? <==> NoteLength(s, item).Some?)
              && (st.Next? ==> st.setting == s
                               && st.added == [SettingNote(s, 'W', item.dot, NoteLength(s, item).value,
                                                           item.sign, s.quantity, item.tied)])
    ensures item.subcommand !in ["@", "@V", "@W"] ==> st == Fail
  {
    var p := PlayArg(item);
    if item.subcommand == "@" then
      if p.Some? && 0 <= p.value <= 61 then Next(s.(tone := p.value), r, [MarkerNote(s, '@', -1, p.value)])
      else Fail
    else if item.subcommand == "@V" then
      if p.Some? && 0 <= p.value <= 127 then Next(s.(volume := p.value as real * (15.0 / 127.0)), r, [])
      else Fail
    else if item.subcommand == "@W" then
      match NoteLength(s, item)
      case None => Fail
      case Some(length) => Next(s, r, [SettingNote(s, 'W', item.dot, length, item.sign, s.quantity, item.tied)])
    else Fail
  }

  /** The `M` and `S` cases: an envelope interval 1..65535 (default 255) or
      an envelope type 0..15 (default 1) becomes a marker note. */
  function EnvelopeStep(s: SoundSetting, r: int, item: PlayItem): (st: Step)
    requires s.tempo != 0 && Command(item) in "MS"
    ensures st.Next? ==> st.setting == s && st.latch == r && |st.added| == 1
    ensures Command(item) == 'M' ==>
              (st.Next? <==> item.param == [] || 1 <= Atoi(item.param) <= 65535)
              && (st.Next? ==> st.added[0] == MarkerNote(s, 'M', -1, st.added[0].data)
                               && 1 <= st.added[0].data <= 65535
                               && st.added[0].data == (if item.param == [] then 255 else Atoi(item.param)))
    ensures Command(item) == 'S' ==>
              (st.Next? <==> item.param == [] || 0 <= Atoi(item.param) <= 15)
              && (st.Next? ==> st.added[0] == MarkerNote(s, 'S', -1, st.added[0].data)
                               && 0 <= st.added[0].data <= 15
                               && st.added[0].data == (if item.param == [] then 1 else Atoi(item.param)))
  {
    var p := PlayArg(item);
    if Command(item) == 'M' then
      if p.None? then Next(s, r, [MarkerNote(s, 'M', -1, 255)])
      else if 1 <= p.value <= 65535 then Next(s, r, [MarkerNote(s, 'M', -1, p.value)]) else Fail
    else
      if p.None? then Next(s, r, [MarkerNote(s, 'S', -1, 1)])
      else if 0 <= p.value <= 15 then Next(s, r, [MarkerNote(s, 'S', -1, p.value)]) else Fail
  }

  /** The `N` case: a key number 0..96, 96 meaning 0, at the setting's
      length or the tuplet's. */
  function KeyStep(s: SoundSetting, r: int, item: PlayItem): (st: Step)
    requires s.tempo != 0
    ensures st.Next? <==> item.param != [] && 0 <= Atoi(item.param) <= 96 && PletLength(item, s.length).Some?
    ensures st.Next? ==> st.setting == s && st.latch == r && |st.added| == 1
                         && st.added[0].key == (if Atoi(item.param) == 96 then 0 else Atoi(item.param)) && st.added[0].octave == 0
                         && st.added[0].length == PletLength(item, s.length).value
                         && st.added[0].tied == item.tied
  {
    var p := PlayArg(item);
    if p.Some? && 0 <= p.value <= 96 then
      var key := if p.value >= 96 then 0 else p.value;
      match PletLength(item, s.length)
      case None => Fail
      case Some(length) => Next(s, r, [KeyNote(s, key, item.dot, length, item.sign, s.quantity).(tied := item.tied)])
    else Fail
  }

  /** The C..B and R cases: a note at NoteLength, tied as its item. */
  function NoteStep(s: SoundSetting, r: int, item: PlayItem): (st: Step)
    requires s.tempo != 0 && Command(item) in "CDEFGABR"
    ensures st.Next? <==> NoteLength(s, item).Some?
    ensures st.Next? ==> st.setting == s && st.latch == r && |st.added| == 1
    ensures st.Next? ==> st.added[0] == SettingNote(s, Command(item), item.dot, NoteLength(s, item).value,
                                                     item.sign, s.quantity, item.tied)
  {
    match NoteLength(s, item)
    case None => Fail
    case Some(length) => Next(s, r, [SettingNote(s, Command(item), item.dot, length, item.sign, s.quantity, item.tied)])
  }

  /** The `Y` and `,` cases: `Y` latches a register number, `,` writes a
      data value to the latched register; both need a parameter. */
  function RegisterStep(s: SoundSetting, r: int, item: PlayItem): (st: Step)
    requires s.tempo != 0 && Command(item) in "Y,"
    ensures st.Next? <==> item.param != []
    ensures st.Next? ==> st.setting == s
    ensures st.Next? && Command(item) == 'Y' ==> st.latch == Atoi(item.param) && st.added == []
    ensures st.Next? && Command(item) == ',' ==> st.latch == r && st.added == [MarkerNote(s, 'Y', r, Atoi(item.param))]
  {
    var p := PlayArg(item);
    if p.None? then Fail
    else if Command(item) == 'Y' then Next(s, p.value, [])
    else Next(s, r, [MarkerNote(s, 'Y', r, p.value)])
  }

  /** The command letters the builder loop tells apart. */
  lemma CommandClasses(ch: char)
    ensures IsController(ch) || ch in "MS" || ch == '@' || ch in "Y," ==> ch !in "NCDEFGABR"
    ensures ch in "NCDEFGABR" <==> ch == 'N' || ch in "CDEFGABR"
    ensures ch !in "MSVLQOT<>NCDEFGABR@Y," <==>
              !IsController(ch) && ch !in "MS" && ch != 'N' && ch !in "CDEFGABR" && ch != '@' && ch !in "Y,"
  {
  }

  /** One pass of the builder loop of vsk_phrase_from_cmd_play_items. */
  function PlayStep(s: SoundSetting, r: int, item: PlayItem): (st: Step)
    requires s.tempo != 0
    ensures st.Next? ==> st.setting.tempo != 0 && |st.added| <= 1
    ensures st.Next? && Command(item) != 'Y' ==> st.latch == r
    ensures st.Next? && IsController(Command(item)) ==> st.added == []
    ensures st.Next? && Command(item) in "NCDEFGABR" ==> st.setting == s && |st.added| == 1 && st.added[0].tied == item.tied
    ensures Command(item) !in "MSVLQOT<>NCDEFGABR@Y," ==> st == Next(s, r, [])
  {
    var ch := Command(item);
    CommandClasses(ch);
    if IsController(ch) then
      match ControlStep(s, item)
      case None => Fail
      case Some(s') => Next(s', r, [])
    else if ch in "MS" then EnvelopeStep(s, r, item)
    else if ch == 'N' then KeyStep(s, r, item)
    else if ch in "CDEFGABR" then NoteStep(s, r, item)
    else if ch == '@' then AtStep(s, r, item)
    else if ch in "Y," then RegisterStep(s, r, item)
    else Next(s, r, [])
  }

  /** What building did: whether it succeeded, and the setting, latch and
      notes at the end (at the failing item when it failed). */
  datatype Played = Played(ok: bool, setting: SoundSetting, latch: int, notes: seq<Note>)

  /** The builder loop over the remaining items. */
  function BuildPlay(s: SoundSetting, r: int, notes: seq<Note>, items: seq<PlayItem>): (b: Played)
    requires s.tempo != 0
    ensures b.setting.tempo != 0
    decreases |items|
  {
    if items == [] then Played(true, s, r, notes)
    else
      match PlayStep(s, r, items[0])
      case Fail => Played(false, s, r, notes)
      case Next(s', r', added) => BuildPlay(s', r', notes + added, items[1..])
  }

  // ---------------------------------------------------------------------------
  // The builder as the source runs it

  /** The controller cases of the loop body. */
  method ApplyControl(phrase: Phrase, item: PlayItem) returns (ok: bool)
    modifies phrase
    requires phrase.setting.tempo != 0 && IsController(Command(item))
    ensures phrase.goal == old(phrase.goal) && phrase.actions == old(phrase.actions)
    ensures phrase.notes == old(phrase.notes)
    ensures var o := ControlStep(old(phrase.setting), item);
            ok == o.Some? && phrase.setting == (if ok then o.value else old(phrase.setting))
  {
    var ch := Command(item);
    var s := phrase.setting;
    var p := PlayArg(item);
    if ch == 'T' {
      if p.None? {
        phrase.SetSetting(s.(tempo := 120));
      } else if 32 <= p.value <= 255 {
        phrase.SetSetting(s.(tempo := p.value));
      } else {
        return false;
      }
    } else if ch == 'O' {
      if p.None? {
        phrase.SetSetting(s.(octave := 4 - 1));
      } else if 1 <= p.value <= 8 {
        phrase.SetSetting(s.(octave := p.value - 1));
      } else {
        return false;
      }
    } else if ch == 'L' {
      if p.None? {
        phrase.SetSetting(s.(length := 24.0 * 4.0));
      } else if 1 <= p.value <= 64 {
        phrase.SetSetting(s.(length := (24.0 * 4.0) / p.value as real));
      } else {
        return false;
      }
    } else if ch == 'Q' {
      if p.None? {
        phrase.SetSetting(s.(quantity := 8));
      } else if 0 <= p.value <= 8 {
        phrase.SetSetting(s.(quantity := p.value));
      } else {
        return false;
      }
    } else if ch == 'V' {
      if p.None? {
        phrase.SetSetting(s.(volume := 8.0));
      } else if 0 <= p.value <= 15 {
        phrase.SetSetting(s.(volume := p.value as real));
      } else {
        return false;
      }
    } else if ch == '<' {
      if 0 < s.octave {
        phrase.SetSetting(s.(octave := s.octave - 1));
      } else {
        return false;
      }
    } else {
      if s.octave < 8 {
        phrase.SetSetting(s.(octave := s.octave + 1));
      } else {
        return false;
      }
    }
    ok := true;
  }

  /** add_note followed by `m_notes.back().m_and = item.m_and`. */
  method AddTiedNote(phrase: Phrase, ch: char, item: PlayItem, length: real)
    modifies phrase
    requires phrase.setting.tempo != 0 && IsNoteChar(ch)
    ensures phrase.setting == old(phrase.setting) && phrase.goal == old(phrase.goal)
    ensures phrase.actions == old(phrase.actions)
    ensures phrase.notes == old(phrase.notes)
              + [SettingNote(phrase.setting, ch, item.dot, length, item.sign, phrase.setting.quantity, item.tied)]
  {
    var s := phrase.setting;
    phrase.AddNoteSigned(ch, item.dot, length, item.sign);
    phrase.SetLastTied(item.tied);
    assert SettingNote(s, ch, item.dot, length, item.sign, s.quantity, false).(tied := item.tied)
        == SettingNote(s, ch, item.dot, length, item.sign, s.quantity, item.tied);
  }

  /** add_key followed by `m_notes.back().m_and = item.m_and`. */
  method AddTiedKey(phrase: Phrase, key: int, item: PlayItem, length: real)
    modifies phrase
    requires phrase.setting.tempo != 0
    ensures phrase.setting == old(phrase.setting) && phrase.goal == old(phrase.goal)
    ensures phrase.actions == old(phrase.actions)
    ensures phrase.notes == old(phrase.notes)
              + [KeyNote(phrase.setting, key, item.dot, length, item.sign, phrase.setting.quantity).(tied := item.tied)]
  {
    phrase.AddKey(key, item.dot, length, item.sign);
    phrase.SetLastTied(item.tied);
  }

  /** The length computation of the C..B, R and @W cases. */
  method ScanNoteLength(s: SoundSetting, item: PlayItem) returns (ok: bool, length: real)
    ensures ok == NoteLength(s, item).Some? && (ok ==> length == NoteLength(s, item).value)
  {
    length := s.length;
    var p := PlayArg(item);
    if p.Some? {
      if 1 <= p.value <= 64 {
        length := (24 * 4 / p.value) as real;
      } else {
        return false, length;
      }
    }
    ok, length := ApplyPlet(item, length);
  }

  /** The tuplet rule as the source writes it, shared by N, C..B, R and @W. */
  method ApplyPlet(item: PlayItem, length: real) returns (ok: bool, r: real)
    ensures ok == PletLength(item, length).Some? && (ok ==> r == PletLength(item, length).value)
  {
    r := length;
    if item.pletCount > 1 && item.pletL != 0 {
      var l := item.pletL;
      if 1 <= l <= 64 {
        r := (24.0 * 4.0) / l as real;
      } else {
        return false, r;
      }
      r := r / item.pletCount as real;
    }
    ok := true;
  }

  /** The `@`, `@V` and `@W` cases of the loop body. */
  method ApplyAt(phrase: Phrase, r: int, item: PlayItem) returns (ok: bool)
    modifies phrase
    requires phrase.setting.tempo != 0 && Command(item) == '@'
    ensures phrase.goal == old(phrase.goal) && phrase.actions == old(phrase.actions)
    ensures var st := AtStep(old(phrase.setting), r, item);
            ok == st.Next?
            && (ok ==> phrase.setting == st.setting && phrase.notes == old(phrase.notes) + st.added)
            && (!ok ==> phrase.setting == old(phrase.setting) && phrase.notes == old(phrase.notes))
  {
    var s := phrase.setting;
    var p := PlayArg(item);
    if item.subcommand == "@" {
      if p.Some? && 0 <= p.value <= 61 {
        phrase.AddTone('@', p.value);
        phrase.SetSetting(s.(tone := p.value));
        return true;
      }
    } else if item.subcommand == "@V" {
      if p.Some? && 0 <= p.value <= 127 {
        phrase.SetSetting(s.(volume := p.value as real * (15.0 / 127.0)));
        return true;
      }
    } else if item.subcommand == "@W" {
      var fits, length := ScanNoteLength(s, item);
      if !fits {
        return false;
      }
      AddTiedNote(phrase, 'W', item, length);
      return true;
    }
    return false;
  }

  /** The `M` and `S` cases of the loop body. */
  method ApplyEnvelope(phrase: Phrase, r: int, item: PlayItem) returns (ok: bool)
    modifies phrase
    requires phrase.setting.tempo != 0 && Command(item) in "MS"
    ensures phrase.goal == old(phrase.goal) && phrase.actions == old(phrase.actions)
    ensures phrase.setting == old(phrase.setting)
    ensures var st := EnvelopeStep(old(phrase.setting), r, item);
            ok == st.Next? && phrase.notes == old(phrase.notes) + (if ok then st.added else [])
  {
    var p := PlayArg(item);
    assert phrase.notes == old(phrase.notes) + [];
    if Command(item) == 'M' {
      var interval := 255;
      if p.Some? {
        if !(1 <= p.value <= 65535) {
          return false;
        }
        interval := p.value;
      }
      phrase.AddEnvelopInterval('M', interval);
    } else {
      var kind := 1;
      if p.Some? {
        if !(0 <= p.value <= 15) {
          return false;
        }
        kind := p.value;
      }
      phrase.AddEnvelopType('S', kind);
    }
    ok := true;
  }

  /** The `N` case of the loop body. */
  method ApplyKey(phrase: Phrase, r: int, item: PlayItem) returns (ok: bool)
    modifies phrase
    requires phrase.setting.tempo != 0
    ensures phrase.goal == old(phrase.goal) && phrase.actions == old(phrase.actions)
    ensures phrase.setting == old(phrase.setting)
    ensures var st := KeyStep(old(phrase.setting), r, item);
            ok == st.Next? && phrase.notes == old(phrase.notes) + (if ok then st.added else [])
  {
    var s := phrase.setting;
    var p := PlayArg(item);
    assert phrase.notes == old(phrase.notes) + [];
    if !(p.Some? && 0 <= p.value <= 96) {
      return false;
    }
    var key := p.value;
    if key >= 96 {
      key := 0;
    }
    var fits, length := ApplyPlet(item, s.length);
    if !fits {
      return false;
    }
    AddTiedKey(phrase, key, item, length);
    ok := true;
  }

  /** The C..B and R cases of the loop body. */
  method ApplyNote(phrase: Phrase, r: int, item: PlayItem) returns (ok: bool)
    modifies phrase
    requires phrase.setting.tempo != 0 && Command(item) in "CDEFGABR"
    ensures phrase.goal == old(phrase.goal) && phrase.actions == old(phrase.actions)
    ensures phrase.setting == old(phrase.setting)
    ensures var st := NoteStep(old(phrase.setting), r, item);
            ok == st.Next? && phrase.notes == old(phrase.notes) + (if ok then st.added else [])
  {
    var fits, length := ScanNoteLength(phrase.setting, item);
    if !fits {
      assert phrase.notes == old(phrase.notes) + [];
      return false;
    }
    AddTiedNote(phrase, Command(item), item, length);
    ok := true;
  }

  /** The `Y` and `,` cases of the loop body. */
  method ApplyRegister(phrase: Phrase, latch: RegisterLatch, item: PlayItem) returns (ok: bool)
    modifies phrase, latch
    requires phrase.setting.tempo != 0 && Command(item) in "Y,"
    ensures phrase.goal == old(phrase.goal) && phrase.actions == old(phrase.actions)
    ensures phrase.setting == old(phrase.setting)
    ensures var st := RegisterStep(old(phrase.setting), old(latch.r), item);
            ok == st.Next? && phrase.notes == old(phrase.notes) + (if ok then st.added else [])
            && latch.r == (if ok then st.latch else old(latch.r))
  {
    var p := PlayArg(item);
    if p.None? {
      assert phrase.notes == old(phrase.notes) + [];
      return false;
    }
    if Command(item) == 'Y' {
      latch.Latch(p.value);
      assert phrase.notes == old(phrase.notes) + [];
    } else {
      phrase.AddReg('Y', latch.r, p.value);
    }
    ok := true;
  }

  /** The body of the builder loop for one item. */
  method ApplyPlayItem(phrase: Phrase, latch: RegisterLatch, item: PlayItem) returns (ok: bool)
    modifies phrase, latch
    requires phrase.setting.tempo != 0
    ensures phrase.goal == old(phrase.goal) && phrase.actions == old(phrase.actions)
    ensures var st := PlayStep(old(phrase.setting), old(latch.r), item);
            ok == st.Next?
            && (ok ==> phrase.setting == st.setting && latch.r == st.latch
                       && phrase.notes == old(phrase.notes) + st.added)
            && (!ok ==> phrase.setting == old(phrase.setting) && latch.r == old(latch.r)
                        && phrase.notes == old(phrase.notes))
  {
    var ch := Command(item);
    if IsController(ch) {
      ok := ApplyControl(phrase, item);
      assert phrase.notes == old(phrase.notes) + [];
    } else if ch in "MS" {
      ok := ApplyEnvelope(phrase, latch.r, item);
    } else if ch == 'N' {
      ok := ApplyKey(phrase, latch.r, item);
    } else if ch in "CDEFGABR" {
      ok := ApplyNote(phrase, latch.r, item);
    } else if ch == '@' {
      ok := ApplyAt(phrase, latch.r, item);
    } else if ch in "Y," {
      ok := ApplyRegister(phrase, latch, item);
    } else {
      ok := true;
      assert phrase.notes == old(phrase.notes) + [];
    }
  }

  /** vsk_phrase_from_cmd_play_items. */
  method PhraseFromPlayItems(phrase: Phrase, latch: RegisterLatch, items: seq<PlayItem>) returns (ok: bool)
    modifies phrase, latch
    requires phrase.setting.tempo != 0
    ensures var b := BuildPlay(old(phrase.setting), old(latch.r), old(phrase.notes), items);
            ok == b.ok && phrase.setting == b.setting && phrase.notes == b.notes && latch.r == b.latch
    ensures phrase.goal == old(phrase.goal) && phrase.actions == old(phrase.actions)
  {
    var j := 0;
    while j < |items|
      invariant j <= |items| && phrase.setting.tempo != 0
      invariant BuildPlay(old(phrase.setting), old(latch.r), old(phrase.notes), items)
             == BuildPlay(phrase.setting, latch.r, phrase.notes, items[j..])
      invariant phrase.goal == old(phrase.goal) && phrase.actions == old(phrase.actions)
      decreases |items| - j
    {
      assert items[j..][0] == items[j] && items[j..][1..] == items[j + 1..];
      ok := ApplyPlayItem(phrase, latch, items[j]);
      if !ok {
        return;
      }
      j := j + 1;
    }
    assert items[j..] == [];
    ok := true;
  }

  // ---------------------------------------------------------------------------
  // The channel loops of vsk_sound_cmd_play_ssg, _fm_and_ssg and _fm

  /** Which of the three entry points (and their _save twins) runs. */
  datatype Chips = Ssg | FmAndSsg | Fm

  /** VSK_SOUND_ERR as these functions return it; CircularRef stands for the
      circular-reference exception of the `[name]` expansion, which leaves
      the function; IllegalCall is VSK_SOUND_ERR_ILLEGAL. */
  datatype SoundErr = Success | IllegalCall | IoError | Circular

  /** Every stored setting has a tempo get_sec can divide by. */
  predicate AllTempos(fm: seq<SoundSetting>, ssg: seq<SoundSetting>)
  {
    (forall c :: 0 <= c < |fm| ==> fm[c].tempo != 0) && (forall c :: 0 <= c < |ssg| ==> ssg[c].tempo != 0)
  }

  /** The setting channel i's phrase starts from. FM+SSG plays FM 0..2 on
      channels 0..2 and SSG i-3 on channels 3.. . */
  function StartSetting(fm: seq<SoundSetting>, ssg: seq<SoundSetting>, chips: Chips, i: nat): (s: SoundSetting)
    requires |fm| == MAX_CHANNEL && |ssg| == MAX_CHANNEL && i < MAX_CHANNEL && AllTempos(fm, ssg)
    ensures s.tempo != 0
    ensures s.fm <==> chips == Fm || (chips == FmAndSsg && i < 3)
  {
    match chips
    case Ssg => ssg[i].(fm := false)
    case Fm => fm[i].(fm := true)
    case FmAndSsg => if i < 3 then fm[i].(fm := true) else ssg[i - 3].(fm := false)
  }

  /** The stored setting channel i's result is written to. FM+SSG writes
      channels 3.. to SSG i, not to the SSG i-3 it read. */
  function Slot(fm: seq<SoundSetting>, ssg: seq<SoundSetting>, chips: Chips, i: nat): SoundSetting
    requires |fm| == MAX_CHANNEL && |ssg| == MAX_CHANNEL && i < MAX_CHANNEL
  {
    match chips
    case Ssg => ssg[i]
    case Fm => fm[i]
    case FmAndSsg => if i < 3 then fm[i] else ssg[i]
  }

  /** The write-back after channel i built: its slot receives the phrase's
      setting and every other channel's slot is kept. */
  function WriteBack(fm: seq<SoundSetting>, ssg: seq<SoundSetting>, chips: Chips, i: nat, s: SoundSetting)
    : (r: (seq<SoundSetting>, seq<SoundSetting>))
    requires |fm| == MAX_CHANNEL && |ssg| == MAX_CHANNEL && i < MAX_CHANNEL
    ensures |r.0| == MAX_CHANNEL && |r.1| == MAX_CHANNEL
    ensures Slot(r.0, r.1, chips, i) == s
    ensures forall j :: 0 <= j < MAX_CHANNEL && j != i ==> Slot(r.0, r.1, chips, j) == Slot(fm, ssg, chips, j)
    ensures chips == Ssg ==> r.0 == fm
    ensures chips == Fm ==> r.1 == ssg
    ensures chips == FmAndSsg ==> r.0[3..] == fm[3..] && r.1[..3] == ssg[..3]
    ensures AllTempos(fm, ssg) && s.tempo != 0 ==> AllTempos(r.0, r.1)
  {
    match chips
    case Ssg => (fm, ssg[i := s])
    case Fm => (fm[i := s], ssg)
    case FmAndSsg => if i < 3 then (fm[i := s], ssg) else (fm, ssg[i := s])
  }

  /** Where the loop over the channel strings ends: the error, the stored
      settings, the latch, and the phrase results of the channels built. */
  datatype Outcome = Outcome(err: SoundErr, fm: seq<SoundSetting>, ssg: seq<SoundSetting>,
                             latch: int, built: seq<Played>)

  /** What one channel string does: stop the command with an error (and
      the latch as the builder left it), or give that channel's phrase. */
  datatype ChannelResult = Stopped(err: SoundErr, latch: int) | Channel(phrase: Played)

  /** One pass of the channel loop: parse, then build from the channel's
      start setting. */
  function ChannelStep(vars: map<string, string>, fm: seq<SoundSetting>, ssg: seq<SoundSetting>, r: int,
                       chips: Chips, str: string, i: nat): (c: ChannelResult)
    requires |fm| == MAX_CHANNEL && |ssg| == MAX_CHANNEL && AllTempos(fm, ssg) && i < MAX_CHANNEL
    ensures c.Stopped? ==> c.err == IllegalCall || c.err == Circular
    ensures c.Stopped? && c.err == Circular <==> PlayTokens(vars, str).CircularRef?
    ensures c.Channel? ==> c.phrase.ok && c.phrase.setting.tempo != 0
  {
    match PlayTokens(vars, str)
    case CircularRef => Stopped(Circular, r)
    case Illegal => Stopped(IllegalCall, r)
    case Parsed(items) =>
      var b := BuildPlay(StartSetting(fm, ssg, chips, i), r, [], items);
      if b.ok then Channel(b) else Stopped(IllegalCall, b.latch)
  }

  /** The loop over the channel strings, from channel |built| on: each
      channel that builds is written back before the next one starts, and
      the first failure ends the loop with the write-backs done so far kept. */
  function PlayChannels(vars: map<string, string>, fm: seq<SoundSetting>, ssg: seq<SoundSetting>, r: int,
                        chips: Chips, strs: seq<string>, built: seq<Played>): (out: Outcome)
    requires |fm| == MAX_CHANNEL && |ssg| == MAX_CHANNEL && AllTempos(fm, ssg)
    requires |strs| < MAX_CHANNEL && |built| <= |strs|
    ensures |out.fm| == MAX_CHANNEL && |out.ssg| == MAX_CHANNEL && AllTempos(out.fm, out.ssg)
    ensures out.err == Success ==> |out.built| == |strs|
    decreases |strs| - |built|
  {
    var i := |built|;
    if i == |strs| then Outcome(Success, fm, ssg, r, built)
    else
      match ChannelStep(vars, fm, ssg, r, chips, strs[i], i)
      case Stopped(err, r') => Outcome(err, fm, ssg, r', built)
      case Channel(b) =>
        var w := WriteBack(fm, ssg, chips, i, b.setting);
        PlayChannels(vars, w.0, w.1, b.latch, chips, strs, built + [b])
  }

  /** The body of the channel loop up to the write-back. */
  method BuildChannel(store: SettingStore, latch: RegisterLatch, vars: map<string, string>,
                      chips: Chips, str: string, i: nat) returns (err: SoundErr, phrase: Phrase?)
    modifies latch
    requires store.Valid() && AllTempos(store.fm, store.ssg) && i < MAX_CHANNEL
    ensures var c := ChannelStep(vars, store.fm, store.ssg, old(latch.r), chips, str, i);
            (c.Stopped? ==> err == c.err && latch.r == c.latch)
            && (c.Channel? ==> err == Success && latch.r == c.phrase.latch && phrase != null && fresh(phrase)
                               && phrase.setting == c.phrase.setting && phrase.notes == c.phrase.notes)
  {
    var parsed := EvalCmdPlayItems(vars, str);
    if parsed.CircularRef? {
      return Circular, null;
    }
    if parsed.Illegal? {
      return IllegalCall, null;
    }
    phrase := new Phrase(StartSetting(store.fm, store.ssg, chips, i));
    var ok := PhraseFromPlayItems(phrase, latch, parsed.items);
    err := if ok then Success else IllegalCall;
  }

  /** The assignments to vsk_ssg_sound_settings[i] / vsk_fm_sound_settings[i]
      after channel i built. */
  method WriteBackStore(store: SettingStore, chips: Chips, i: nat, s: SoundSetting)
    modifies store
    requires store.Valid() && i < MAX_CHANNEL
    ensures store.Valid() && (store.fm, store.ssg) == WriteBack(old(store.fm), old(store.ssg), chips, i, s)
  {
    if chips == Ssg || (chips == FmAndSsg && i >= 3) {
      store.SetSsg(i, s);
    } else {
      store.SetFm(i, s);
    }
  }

  /** One pass of the channel loop, write-back included: the rest of the
      loop is what PlayChannels says of the new state. */
  method PlayChannel(store: SettingStore, latch: RegisterLatch, vars: map<string, string>,
                     chips: Chips, strs: seq<string>, i: nat, ghost built: seq<Played>)
      returns (err: SoundErr, phrase: Phrase?, ghost b: Played)
    modifies store, latch
    requires store.Valid() && AllTempos(store.fm, store.ssg) && i == |built| < |strs| < MAX_CHANNEL
    ensures store.Valid() && AllTempos(store.fm, store.ssg)
    ensures err == Success ==>
              phrase != null && fresh(phrase) && phrase.setting == b.setting && phrase.notes == b.notes
              && PlayChannels(vars, old(store.fm), old(store.ssg), old(latch.r), chips, strs, built)
                 == PlayChannels(vars, store.fm, store.ssg, latch.r, chips, strs, built + [b])
    ensures err != Success ==>
              PlayChannels(vars, old(store.fm), old(store.ssg), old(latch.r), chips, strs, built)
              == Outcome(err, store.fm, store.ssg, latch.r, built)
  {
    ghost var c := ChannelStep(vars, store.fm, store.ssg, latch.r, chips, strs[i], i);
    b := if c.Channel? then c.phrase else Played(false, store.fm[0], c.latch, []);
    err, phrase := BuildChannel(store, latch, vars, chips, strs[i], i);
    if err != Success {
      return;
    }
    WriteBackStore(store, chips, i, phrase.setting);
  }

  /** vsk_sound_cmd_play_ssg / _fm_and_ssg / _fm up to playback: the block
      handed to the player is returned. */
  method SoundCmdPlay(store: SettingStore, latch: RegisterLatch, vars: map<string, string>,
                      chips: Chips, strs: seq<string>) returns (err: SoundErr, block: seq<Phrase>)
    modifies store, latch
    requires store.Valid() && AllTempos(store.fm, store.ssg) && |strs| < MAX_CHANNEL
    ensures store.Valid()
    ensures var out := PlayChannels(vars, old(store.fm), old(store.ssg), old(latch.r), chips, strs, []);
            err == out.err && store.fm == out.fm && store.ssg == out.ssg && latch.r == out.latch
            && (err == Success ==>
                  |block| == |strs|
                  && (forall j :: 0 <= j < |strs| ==>
                        block[j].setting == out.built[j].setting && block[j].notes == out.built[j].notes))
  {
    block := [];
    ghost var built: seq<Played> := [];
    var i := 0;
    while i < |strs|
      invariant i == |built| == |block| <= |strs|
      invariant store.Valid() && AllTempos(store.fm, store.ssg)
      invariant PlayChannels(vars, old(store.fm), old(store.ssg), old(latch.r), chips, strs, [])
             == PlayChannels(vars, store.fm, store.ssg, latch.r, chips, strs, built)
      invariant forall j :: 0 <= j < i ==> block[j].setting == built[j].setting && block[j].notes == built[j].notes
      decreases |strs| - i
    {
      var e;
      e, block, built := PlayAndCollect(store, latch, vars, chips, strs, block, built, old(store.fm), old(store.ssg), old(latch.r));
      if e != Success {
        return e, block;
      }
      i := i + 1;
    }
    err := Success;
  }

  /** One pass of SoundCmdPlay's channel loop: the channel's phrase joins
      the block when it builds. */
  method PlayAndCollect(store: SettingStore, latch: RegisterLatch, vars: map<string, string>,
                        chips: Chips, strs: seq<string>, block: seq<Phrase>, ghost built: seq<Played>,
                        ghost fm0: seq<SoundSetting>, ghost ssg0: seq<SoundSetting>, ghost r0: int)
      returns (err: SoundErr, block': seq<Phrase>, ghost built': seq<Played>)
    modifies store, latch
    requires |fm0| == MAX_CHANNEL && |ssg0| == MAX_CHANNEL && AllTempos(fm0, ssg0)
    requires store.Valid() && AllTempos(store.fm, store.ssg) && |built| == |block| < |strs| < MAX_CHANNEL
    requires PlayChannels(vars, fm0, ssg0, r0, chips, strs, []) == PlayChannels(vars, store.fm, store.ssg, latch.r, chips, strs, built)
    requires forall j :: 0 <= j < |block| ==> block[j].setting == built[j].setting && block[j].notes == built[j].notes
    ensures store.Valid() && AllTempos(store.fm, store.ssg)
    ensures err != Success ==>
              PlayChannels(vars, fm0, ssg0, r0, chips, strs, []) == Outcome(err, store.fm, store.ssg, latch.r, built)
    ensures err == Success ==>
              |built'| == |block'| == |block| + 1
              && PlayChannels(vars, fm0, ssg0, r0, chips, strs, []) == PlayChannels(vars, store.fm, store.ssg, latch.r, chips, strs, built')
              && forall j :: 0 <= j < |block'| ==> block'[j].setting == built'[j].setting && block'[j].notes == built'[j].notes
  {
    var phrase;
    ghost var b;
    err, phrase, b := PlayChannel(store, latch, vars, chips, strs, |block|, built);
    if err != Success {
      return err, block, built;
    }
    block' := block + [phrase];
    built' := built + [b];
  }

  /** vsk_sound_cmd_play_*_save: as SoundCmdPlay, then IO_ERROR when
      save_as_wav, whose result is `saved`, fails. */
  method SoundCmdPlaySave(store: SettingStore, latch: RegisterLatch, vars: map<string, string>,
                          chips: Chips, strs: seq<string>, saved: bool) returns (err: SoundErr)
    modifies store, latch
    requires store.Valid() && AllTempos(store.fm, store.ssg) && |strs| < MAX_CHANNEL
    ensures store.Valid()
    ensures var out := PlayChannels(vars, old(store.fm), old(store.ssg), old(latch.r), chips, strs, []);
            err == (if out.err == Success && !saved then IoError else out.err)
            && store.fm == out.fm && store.ssg == out.ssg && latch.r == out.latch
  {
    var block;
    err, block := SoundCmdPlay(store, latch, vars, chips, strs);
    if err == Success && !saved {
      err := IoError;
    }
  }

  // ---------------------------------------------------------------------------
  // Properties of the builder

  /** Building only ever appends, at most one note per item. */
  lemma {:induction false} BuildPlayAppends(s: SoundSetting, r: int, notes: seq<Note>, items: seq<PlayItem>)
    requires s.tempo != 0
    ensures var b := BuildPlay(s, r, notes, items);
            |notes| <= |b.notes| <= |notes| + |items| && b.notes[..|notes|] == notes
    decreases |items|
  {
    if items != [] {
      match PlayStep(s, r, items[0])
      case Fail =>
      case Next(s', r', added) =>
        BuildPlayAppends(s', r', notes + added, items[1..]);
        var b := BuildPlay(s', r', notes + added, items[1..]);
        assert b.notes[..|notes|] == b.notes[..|notes + added|][..|notes|];
    }
  }

  /** Building `a + b` is building `a`, then, if that succeeded, `b` from
      where `a` left the setting, the latch and the notes. */
  lemma {:induction false} BuildPlayConcat(s: SoundSetting, r: int, notes: seq<Note>,
                                           a: seq<PlayItem>, b: seq<PlayItem>)
    requires s.tempo != 0
    ensures var x := BuildPlay(s, r, notes, a);
            BuildPlay(s, r, notes, a + b) == (if x.ok then BuildPlay(x.setting, x.latch, x.notes, b) else x)
    decreases |a|
  {
    if a == [] {
      assert a + b == b;
    } else {
      assert (a + b)[0] == a[0] && (a + b)[1..] == a[1..] + b;
      match PlayStep(s, r, a[0])
      case Fail =>
      case Next(s', r', added) => BuildPlayConcat(s', r', notes + added, a[1..], b);
    }
  }

  /** The controllers and octave steps add no notes and leave the latch. */
  lemma {:induction false} ControllersAddNoNotes(s: SoundSetting, r: int, notes: seq<Note>, items: seq<PlayItem>)
    requires s.tempo != 0
    requires forall j :: 0 <= j < |items| ==> IsController(Command(items[j]))
    ensures BuildPlay(s, r, notes, items).notes == notes && BuildPlay(s, r, notes, items).latch == r
    decreases |items|
  {
    if items != [] {
      match PlayStep(s, r, items[0])
      case Fail =>
      case Next(s', r', added) =>
        assert notes + added == notes;
        ControllersAddNoNotes(s', r', notes, items[1..]);
    }
  }

  /** One step of a `Y` or `,` is the register step. */
  lemma PlayStepIsRegister(s: SoundSetting, r: int, item: PlayItem)
    requires s.tempo != 0 && Command(item) in "Y,"
    ensures PlayStep(s, r, item) == RegisterStep(s, r, item)
  {
    var ch := Command(item);
    assert ch == 'Y' || ch == ',';
    assert !IsController(ch) && ch !in "MS" && ch != 'N' && ch !in "CDEFGABR" && ch != '@';
  }

  /** One step of a controller is its controller function. */
  lemma PlayStepIsControl(s: SoundSetting, r: int, item: PlayItem)
    requires s.tempo != 0 && IsController(Command(item))
    ensures PlayStep(s, r, item) == (if ControlStep(s, item).Some? then Next(ControlStep(s, item).value, r, []) else Fail)
  {
  }

  /** `Y` then `,` writes the data of `,` to the register `Y` named, and a
      later `,` keeps using that register. */
  lemma RegisterPair(s: SoundSetting, r: int, notes: seq<Note>, y: PlayItem, comma: PlayItem, again: PlayItem)
    requires s.tempo != 0 && Command(y) == 'Y' && Command(comma) == ',' && Command(again) == ','
    requires y.param != [] && comma.param != [] && again.param != []
    ensures BuildPlay(s, r, notes, [y, comma, again])
         == Played(true, s, Atoi(y.param), notes + [MarkerNote(s, 'Y', Atoi(y.param), Atoi(comma.param)),
                                                    MarkerNote(s, 'Y', Atoi(y.param), Atoi(again.param))])
  {
    var reg := Atoi(y.param);
    var n1 := MarkerNote(s, 'Y', reg, Atoi(comma.param));
    var n2 := MarkerNote(s, 'Y', reg, Atoi(again.param));
    PlayStepIsRegister(s, r, y);
    PlayStepIsRegister(s, reg, comma);
    PlayStepIsRegister(s, reg, again);
    BuildPlayNext(s, r, notes, [y, comma, again], s, reg, []);
    assert [y, comma, again][1..] == [comma, again];
    BuildPlayNext(s, reg, notes + [], [comma, again], s, reg, [n1]);
    assert notes + [] == notes && [comma, again][1..] == [again];
    BuildPlayNext(s, reg, notes + [n1], [again], s, reg, [n2]);
    assert notes + [n1] + [n2] == notes + [n1, n2] && [again][1..] == [];
  }

  /** One step of the builder that does not fail. */
  lemma BuildPlayNext(s: SoundSetting, r: int, notes: seq<Note>, items: seq<PlayItem>,
                      s': SoundSetting, r': int, added: seq<Note>)
    requires s.tempo != 0 && items != [] && PlayStep(s, r, items[0]) == Next(s', r', added)
    ensures s'.tempo != 0
    ensures BuildPlay(s, r, notes, items) == BuildPlay(s', r', notes + added, items[1..])
  {
  }

  /** `<` then `>` is no change away from the bottom octave. */
  lemma OctaveDownUp(s: SoundSetting, r: int, notes: seq<Note>, down: PlayItem, up: PlayItem)
    requires s.tempo != 0 && Command(down) == '<' && Command(up) == '>' && 0 < s.octave <= 8
    ensures BuildPlay(s, r, notes, [down, up]) == Played(true, s, r, notes)
  {
    var d := s.(octave := s.octave - 1);
    PlayStepIsControl(s, r, down);
    assert PlayStep(s, r, down) == Next(d, r, []);
    PlayStepIsControl(d, r, up);
    assert d.(octave := d.octave + 1) == s;
    assert PlayStep(d, r, up) == Next(s, r, []);
    assert [down, up][1..] == [up] && [up][1..] == [];
    assert notes + [] == notes;
    assert BuildPlay(s, r, notes, [down, up]) == BuildPlay(d, r, notes, [up]);
  }

  /** `<` at the bottom octave fails the build. */
  lemma OctaveBelowBottom(s: SoundSetting, r: int, notes: seq<Note>, down: PlayItem, rest: seq<PlayItem>)
    requires s.tempo != 0 && Command(down) == '<' && s.octave == 0
    ensures BuildPlay(s, r, notes, [down] + rest) == Played(false, s, r, notes)
  {
    PlayStepIsControl(s, r, down);
    assert PlayStep(s, r, down) == Fail;
    assert ([down] + rest)[0] == down;
  }

  /** `>` reaches octave 8, one above the highest `O` can set, and no further. */
  lemma OctaveAboveO(s: SoundSetting, r: int, notes: seq<Note>, up: PlayItem, o: PlayItem)
    requires s.tempo != 0 && Command(up) == '>' && Command(o) == 'O' && s.octave == 7
    ensures BuildPlay(s, r, notes, [up]) == Played(true, s.(octave := 8), r, notes)
    ensures forall v :: SetOctave(s, o) == Some(v) ==> v.octave < 8
  {
    PlayStepIsControl(s, r, up);
    assert PlayStep(s, r, up) == Next(s.(octave := 8), r, []);
    assert [up][1..] == [];
    assert notes + [] == notes;
  }

  /** An explicit note length is the integer quotient 96 div n, but `L` n
      stores the real 96/n: `C7` lasts 13 units and `L7` 96/7. */
  lemma {:induction false} ExplicitLengthIsWhole(s: SoundSetting, c: PlayItem, l: PlayItem, n: nat)
    requires Command(c) in "CDEFGABR" && !InTuplet(c) && Command(l) == 'L'
    requires 1 <= n <= 64 && c.param == DecimalString(n) && l.param == DecimalString(n)
    ensures NoteLength(s, c) == Some((96 / n) as real)
    ensures SetLength(s, l).Some? && SetLength(s, l).value.length == 96.0 / n as real
    ensures n == 7 ==> NoteLength(s, c) == Some(13.0) && SetLength(s, l).value.length != 13.0
  {
    AtoiDecimalRoundTrip(n);
    assert Atoi(c.param) == n && Atoi(l.param) == n;
    var o := NoteLength(s, c);
    assert o.Some? && o.value == (96 / n) as real;
    var sl := SetLength(s, l);
    assert sl.Some? && sl.value.length == 96.0 / n as real;
    if n == 7 {
      SeventhNotWhole();
    }
  }

  /** 96 div 7 is 13, but 96/7 is not. */
  lemma SeventhNotWhole()
    ensures 96 / 7 == 13 && 96.0 / 7.0 != 13.0
  {
    assert 13.0 * 7.0 == 91.0;
  }

  /** The three notes of a `{...}4` triplet each last a third of a
      quarter note, whatever their own length. */
  lemma TripletLength(s: SoundSetting, c: PlayItem)
    requires Command(c) in "CDEFGABR" && c.pletCount == 3 && c.pletL == 4
    requires c.param == [] || 1 <= Atoi(c.param) <= 64
    ensures NoteLength(s, c) == Some(8.0)
  {
  }

  /** A text whose last note carries a tie (`C&`) builds a phrase whose last
      note is tied: rescan_notes would then read past the end of the notes,
      so the phrase does not meet TiesClosed. */
  lemma TiedLastNoteOpen(s: SoundSetting, r: int, notes: seq<Note>, item: PlayItem)
    requires s.tempo != 0 && Command(item) in "CDEFGABR" && item.tied
    requires NoteLength(s, item).Some?
    ensures var b := BuildPlay(s, r, notes, [item]);
            b.ok && |b.notes| == |notes| + 1 && !TiesClosed(b.notes)
  {
    PlayStepIsNote(s, r, item);
    var st := NoteStep(s, r, item);
    assert BuildPlay(s, r, notes, [item]) == BuildPlay(st.setting, st.latch, notes + st.added, []) by {
      assert [item][0] == item && [item][1..] == [];
    }
  }

  /** One step of a note or a rest is NoteStep. */
  lemma PlayStepIsNote(s: SoundSetting, r: int, item: PlayItem)
    requires s.tempo != 0 && Command(item) in "CDEFGABR"
    ensures PlayStep(s, r, item) == NoteStep(s, r, item)
  {
    var ch := Command(item);
    assert !IsController(ch) && ch !in "MS" && ch != 'N';
  }

  // ---------------------------------------------------------------------------
  // Properties of the channel loops

  /** Every channel built is in its slot, the slots of the channels not
      reached keep their settings, and the command succeeds exactly when
      every channel string built. */
  lemma {:induction false} ChannelsWritten(vars: map<string, string>, fm: seq<SoundSetting>, ssg: seq<SoundSetting>,
                                           r: int, chips: Chips, strs: seq<string>, built: seq<Played>)
    requires |fm| == MAX_CHANNEL && |ssg| == MAX_CHANNEL && AllTempos(fm, ssg)
    requires |strs| < MAX_CHANNEL && |built| <= |strs|
    requires forall j :: 0 <= j < |built| ==> Slot(fm, ssg, chips, j) == built[j].setting
    ensures var out := PlayChannels(vars, fm, ssg, r, chips, strs, built);
            |built| <= |out.built| <= |strs| && out.built[..|built|] == built
            && (forall j :: 0 <= j < |out.built| ==> Slot(out.fm, out.ssg, chips, j) == out.built[j].setting)
            && (forall j :: |out.built| <= j < MAX_CHANNEL ==> Slot(out.fm, out.ssg, chips, j) == Slot(fm, ssg, chips, j))
            && (out.err == Success <==> |out.built| == |strs|)
            && out.err != IoError
  {
    ChannelsBuilt(vars, fm, ssg, r, chips, strs, built);
    ChannelSlots(vars, fm, ssg, r, chips, strs, built);
  }

  /** The channels built extend those given, and the command succeeds
      exactly when every channel string built. */
  lemma {:induction false} ChannelsBuilt(vars: map<string, string>, fm: seq<SoundSetting>, ssg: seq<SoundSetting>,
                                         r: int, chips: Chips, strs: seq<string>, built: seq<Played>)
    requires |fm| == MAX_CHANNEL && |ssg| == MAX_CHANNEL && AllTempos(fm, ssg)
    requires |strs| < MAX_CHANNEL && |built| <= |strs|
    ensures var out := PlayChannels(vars, fm, ssg, r, chips, strs, built);
            |built| <= |out.built| <= |strs| && out.built[..|built|] == built
            && (out.err == Success <==> |out.built| == |strs|)
            && out.err != IoError
    decreases |strs| - |built|
  {
    var i := |built|;
    if i < |strs| {
      match ChannelStep(vars, fm, ssg, r, chips, strs[i], i)
      case Stopped(_, _) =>
      case Channel(b) =>
        var w := WriteBack(fm, ssg, chips, i, b.setting);
        ChannelsBuilt(vars, w.0, w.1, b.latch, chips, strs, built + [b]);
        var out := PlayChannels(vars, w.0, w.1, b.latch, chips, strs, built + [b]);
        assert out.built[..|built|] == out.built[..|built + [b]|][..|built|];
    }
  }

  /** Every channel built is in its slot and the slots of the channels not
      reached keep their settings. */
  lemma {:induction false} ChannelSlots(vars: map<string, string>, fm: seq<SoundSetting>, ssg: seq<SoundSetting>,
                                        r: int, chips: Chips, strs: seq<string>, built: seq<Played>)
    requires |fm| == MAX_CHANNEL && |ssg| == MAX_CHANNEL && AllTempos(fm, ssg)
    requires |strs| < MAX_CHANNEL && |built| <= |strs|
    requires forall j :: 0 <= j < |built| ==> Slot(fm, ssg, chips, j) == built[j].setting
    ensures var out := PlayChannels(vars, fm, ssg, r, chips, strs, built);
            |out.built| <= |strs|
            && (forall j :: 0 <= j < |out.built| ==> Slot(out.fm, out.ssg, chips, j) == out.built[j].setting)
            && (forall j :: |out.built| <= j < MAX_CHANNEL ==> Slot(out.fm, out.ssg, chips, j) == Slot(fm, ssg, chips, j))
    decreases |strs| - |built|
  {
    ChannelsBuilt(vars, fm, ssg, r, chips, strs, built);
    var i := |built|;
    if i < |strs| {
      match ChannelStep(vars, fm, ssg, r, chips, strs[i], i)
      case Stopped(_, _) =>
      case Channel(b) =>
        var w := WriteBack(fm, ssg, chips, i, b.setting);
        var nb := built + [b];
        assert forall j :: 0 <= j < |nb| ==> Slot(w.0, w.1, chips, j) == nb[j].setting by {
          forall j | 0 <= j < |nb| ensures Slot(w.0, w.1, chips, j) == nb[j].setting {
            if j < i { assert nb[j] == built[j]; }
          }
        }
        ChannelsBuilt(vars, w.0, w.1, b.latch, chips, strs, nb);
        ChannelSlots(vars, w.0, w.1, b.latch, chips, strs, nb);
        var out := PlayChannels(vars, w.0, w.1, b.latch, chips, strs, nb);
        assert forall j :: |out.built| <= j < MAX_CHANNEL ==> Slot(w.0, w.1, chips, j) == Slot(fm, ssg, chips, j);
    }
  }

  /** SSG-only commands never touch the FM settings and FM-only commands
      never touch the SSG settings. FM+SSG never writes FM 3..5 nor SSG
      0..2, so the SSG settings its channels 3.. start from are never
      updated. */
  lemma {:induction false} ChannelsKeepOthers(vars: map<string, string>, fm: seq<SoundSetting>, ssg: seq<SoundSetting>,
                                              r: int, chips: Chips, strs: seq<string>, built: seq<Played>)
    requires |fm| == MAX_CHANNEL && |ssg| == MAX_CHANNEL && AllTempos(fm, ssg)
    requires |strs| < MAX_CHANNEL && |built| <= |strs|
    ensures var out := PlayChannels(vars, fm, ssg, r, chips, strs, built);
            (chips == Ssg ==> out.fm == fm) && (chips == Fm ==> out.ssg == ssg)
            && (chips == FmAndSsg ==> out.fm[3..] == fm[3..] && out.ssg[..3] == ssg[..3])
    decreases |strs| - |built|
  {
    var i := |built|;
    if i < |strs| {
      match ChannelStep(vars, fm, ssg, r, chips, strs[i], i)
      case Stopped(_, _) =>
      case Channel(b) =>
        var w := WriteBack(fm, ssg, chips, i, b.setting);
        ChannelsKeepOthers(vars, w.0, w.1, b.latch, chips, strs, built + [b]);
    }
  }
}
