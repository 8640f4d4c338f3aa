/** soundplayer.h / soundplayer.cpp: VskPhrase, a setting and the list of
    notes built from it, with the add_* builders, tie merging, gate
    computation and the special-action schedule. */
module Phrases {
  import opened Base
  import opened Notes

  /** The note add_note appends: tempo, octave and volume from the setting. */
  function SettingNote(s: SoundSetting, ch: char, dot: bool, length: real, sign: char,
                       quantity: int, tied: bool): (n: Note)
    requires s.tempo != 0 && IsNoteChar(ch)
    ensures n.tempo == s.tempo && n.octave == s.octave && n.volume == s.volume
    ensures n.length == length && n.sec == GetSec(s.tempo, length, dot)
    ensures n.key == KeyFromChar(ch, sign) && n.quantity == quantity && n.tied == tied
    ensures n.reg == -1 && n.data == -1
  {
    MakeNote(s.tempo, s.octave, ch, dot, length, sign, s.volume, quantity, tied, -1, -1)
  }

  /** The note add_tone, add_reg, add_envelop_* and add_action_node append:
      undotted and of zero length, so it lasts no time; the payload is `data`. */
  function MarkerNote(s: SoundSetting, ch: char, reg: int, data: int): (n: Note)
    requires s.tempo != 0 && IsNoteChar(ch)
    ensures n.length == 0.0 && n.sec == 0.0 && !n.dot && !n.tied
    ensures n.reg == reg && n.data == data && n.key == KeyFromChar(ch, NUL)
    ensures n.quantity == s.quantity && n.octave == s.octave
  {
    MakeNote(s.tempo, s.octave, ch, false, 0.0, NUL, s.volume, s.quantity, false, reg, data)
  }

  /** The note add_key appends: octave 0 and the key number itself, with 96
      (the top of the N range) folded onto 0. */
  function KeyNote(s: SoundSetting, key: int, dot: bool, length: real, sign: char, quantity: int): (n: Note)
    requires s.tempo != 0
    ensures n.octave == 0 && n.key == (if key == 96 then 0 else key)
    ensures n.length == length && n.sec == GetSec(s.tempo, length, dot)
    ensures n.quantity == quantity && !n.tied && n.reg == -1 && n.data == -1
  {
    MakeNote(s.tempo, 0, NUL, dot, length, sign, s.volume, quantity, false, -1, -1)
      .(key := if key == 96 then 0 else key)
  }

  class Phrase {
    /** m_goal: the phrase's total duration in seconds, set by calc_total. */
    var goal: real
    /** m_setting. */
    var setting: SoundSetting
    /** m_notes. */
    var notes: seq<Note>
    /** m_gate_to_special_action_no. */
    var actions: seq<(real, int)>

    /** VskPhrase(const VskSoundSetting&). */
    constructor (s: SoundSetting)
      ensures setting == s && notes == [] && actions == [] && goal == 0.0
    {
      setting := s;
      notes := [];
      actions := [];
      goal := 0.0;
    }

    /** Appends one note; nothing else changes. */
    method Append(n: Note)
      modifies this
      ensures setting == old(setting) && goal == old(goal) && actions == old(actions)
      ensures notes == old(notes) + [n]
    {
      notes := notes + [n];
    }

    /** add_note(note, dot, length, sign, quantity, and_). */
    method AddNote(ch: char, dot: bool, length: real, sign: char, quantity: int, tied: bool)
      modifies this
      requires setting.tempo != 0 && IsNoteChar(ch)
      ensures setting == old(setting) && goal == old(goal) && actions == old(actions)
      ensures notes == old(notes) + [SettingNote(setting, ch, dot, length, sign, quantity, tied)]
    {
      Append(SettingNote(setting, ch, dot, length, sign, quantity, tied));
    }

    /** add_note(note, dot, length, sign): the setting's quantity, no tie. */
    method AddNoteSigned(ch: char, dot: bool, length: real, sign: char)
      modifies this
      requires setting.tempo != 0 && IsNoteChar(ch)
      ensures setting == old(setting) && goal == old(goal) && actions == old(actions)
      ensures notes == old(notes) + [SettingNote(setting, ch, dot, length, sign, setting.quantity, false)]
    {
      AddNote(ch, dot, length, sign, setting.quantity, false);
    }

    /** add_note(note, dot): the setting's length as well, and no sign. */
    method AddNoteDotted(ch: char, dot: bool)
      modifies this
      requires setting.tempo != 0 && IsNoteChar(ch)
      ensures setting == old(setting) && goal == old(goal) && actions == old(actions)
      ensures notes == old(notes) + [SettingNote(setting, ch, dot, setting.length, NUL, setting.quantity, false)]
    {
      AddNoteSigned(ch, dot, setting.length, NUL);
    }

    /** add_action_node(note, action_no). */
    method AddActionNode(ch: char, actionNo: int)
      modifies this
      requires setting.tempo != 0 && IsNoteChar(ch)
      ensures setting == old(setting) && goal == old(goal) && actions == old(actions)
      ensures notes == old(notes) + [MarkerNote(setting, ch, -1, actionNo)]
    {
      Append(MarkerNote(setting, ch, -1, actionNo));
    }

    /** add_tone(note, tone_no). */
    method AddTone(ch: char, toneNo: int)
      modifies this
      requires setting.tempo != 0 && IsNoteChar(ch)
      ensures setting == old(setting) && goal == old(goal) && actions == old(actions)
      ensures notes == old(notes) + [MarkerNote(setting, ch, -1, toneNo)]
    {
      Append(MarkerNote(setting, ch, -1, toneNo));
    }

    /** add_reg(note, reg, data). */
    method AddReg(ch: char, reg: int, data: int)
      modifies this
      requires setting.tempo != 0 && IsNoteChar(ch)
      ensures setting == old(setting) && goal == old(goal) && actions == old(actions)
      ensures notes == old(notes) + [MarkerNote(setting, ch, reg, data)]
    {
      Append(MarkerNote(setting, ch, reg, data));
    }

    /** add_envelop_interval(note, data). */
    method AddEnvelopInterval(ch: char, data: int)
      modifies this
      requires setting.tempo != 0 && IsNoteChar(ch)
      ensures setting == old(setting) && goal == old(goal) && actions == old(actions)
      ensures notes == old(notes) + [MarkerNote(setting, ch, -1, data)]
    {
      Append(MarkerNote(setting, ch, -1, data));
    }

    /** add_envelop_type(note, data). */
    method AddEnvelopType(ch: char, data: int)
      modifies this
      requires setting.tempo != 0 && IsNoteChar(ch)
      ensures setting == old(setting) && goal == old(goal) && actions == old(actions)
      ensures notes == old(notes) + [MarkerNote(setting, ch, -1, data)]
    {
      Append(MarkerNote(setting, ch, -1, data));
    }

    /** add_key(key, dot, length, sign): the setting's quantity. */
    method AddKey(key: int, dot: bool, length: real, sign: char)
      modifies this
      requires setting.tempo != 0
      ensures setting == old(setting) && goal == old(goal) && actions == old(actions)
      ensures notes == old(notes) + [KeyNote(setting, key, dot, length, sign, setting.quantity)]
    {
      Append(KeyNote(setting, key, dot, length, sign, setting.quantity));
    }

    /** `m_notes.back().m_and = ...` of the PLAY builder. */
    method SetLastTied(tied: bool)
      modifies this
      requires notes != []
      ensures notes == old(notes)[|old(notes)| - 1 := old(notes)[|old(notes)| - 1].(tied := tied)]
      ensures setting == old(setting) && goal == old(goal) && actions == old(actions)
    {
      notes := notes[|notes| - 1 := notes[|notes| - 1].(tied := tied)];
    }

    /** Replaces the setting (the builders' updates of m_setting). */
    method SetSetting(s: SoundSetting)
      modifies this
      ensures setting == s
      ensures notes == old(notes) && goal == old(goal) && actions == old(actions)
    {
      setting := s;
    }

    /** VskPhrase::rescan_notes. */
    method RescanNotes()
      modifies this
      requires TiesClosed(notes)
      ensures notes == MergeTies(old(notes))
      ensures setting == old(setting) && goal == old(goal) && actions == old(actions)
    {
      notes := MergedNotes(notes);
    }

    /** VskPhrase::calc_total. */
    method CalcTotal()
      modifies this
      ensures notes == WithGates(old(notes), 0.0) && goal == SumSec(old(notes))
      ensures setting == old(setting) && actions == old(actions)
    {
      var src := notes;
      var gate := 0.0;
      var j := 0;
      while j < |notes|
        invariant j <= |notes| == |src|
        invariant forall x :: 0 <= x < j ==> notes[x] == src[x].(gate := 0.0 + SumSec(src[..x]))
        invariant forall x :: j <= x < |src| ==> notes[x] == src[x]
        invariant gate == SumSec(src[..j])
        invariant setting == old(setting) && actions == old(actions)
      {
        notes := notes[j := notes[j].(gate := gate)];
        SumOneMore(src, j);
        gate := gate + src[j].sec;
        j := j + 1;
      }
      assert src[..j] == src;
      goal := gate;
    }

    /** VskPhrase::schedule_special_action. */
    method ScheduleSpecialAction(gate: real, actionNo: int)
      modifies this
      ensures actions == old(actions) + [(gate, actionNo)]
      ensures notes == old(notes) && setting == old(setting) && goal == old(goal)
    {
      actions := actions + [(gate, actionNo)];
    }
  }

  /** The loop of rescan_notes, building the new note vector. */
  method MergedNotes(src: seq<Note>) returns (merged: seq<Note>)
    requires TiesClosed(src)
    ensures merged == MergeTies(src)
  {
    merged := [];
    var i := 0;
    assert src[0..] == src;
    while i < |src|
      invariant i <= |src| && TiesClosed(src[i..])
      invariant merged + MergeTies(src[i..]) == MergeTies(src)
      decreases |src| - i
    {
      merged, i := MergeOne(src, merged, i);
    }
    assert src[i..] == [];
    assert merged + MergeTies(src[i..]) == merged;
  }

  /** One pass of the loop of rescan_notes: a tied run is merged into one
      note, an untied note is copied. */
  method MergeOne(src: seq<Note>, merged: seq<Note>, i: nat) returns (merged': seq<Note>, i': nat)
    requires i < |src| && TiesClosed(src) && TiesClosed(src[i..])
    ensures i < i' <= |src| && TiesClosed(src[i'..])
    ensures merged' + MergeTies(src[i'..]) == merged + MergeTies(src[i..])
  {
    if src[i].tied {
      var k, length, sec := TiedRun(src, i);
      MergeTiedStep(src, i);
      var head := src[i].(length := length, sec := sec);
      i' := i + k + 1;
      ghost var tail := MergeTies(src[i'..]);
      assert MergeTies(src[i..]) == [head] + tail;
      ConsStep(merged, head, tail, MergeTies(src[i..]), merged + MergeTies(src[i..]));
      merged' := merged + [head];
    } else {
      MergeUntiedStep(src, i);
      i' := i + 1;
      ghost var tail := MergeTies(src[i'..]);
      assert MergeTies(src[i..]) == [src[i]] + tail;
      ConsStep(merged, src[i], tail, MergeTies(src[i..]), merged + MergeTies(src[i..]));
      merged' := merged + [src[i]];
    }
  }

  /** The do-while of rescan_notes: from a tied note at `i`, the count `k` of
      tied notes and the summed length and seconds of the run through the
      untied note that ends it. */
  method TiedRun(src: seq<Note>, i: nat) returns (k: nat, length: real, sec: real)
    requires i < |src| && src[i].tied && TiesClosed(src)
    ensures k == TiedPrefix(src[i..]) && i + k < |src|
    ensures src[i].(length := length, sec := sec) == MergedHead(src[i..][..k + 1])
  {
    ghost var rest := src[i..];
    k := 0;
    length := 0.0;
    sec := 0.0;
    SumOneMore(rest, 0);
    length := length + src[i + k].length;
    sec := sec + src[i + k].sec;
    k := k + 1;
    while src[i + k].tied
      invariant 1 <= k && i + k < |src|
      invariant forall j :: 0 <= j < k ==> rest[j].tied
      invariant length == SumLength(rest[..k]) && sec == SumSec(rest[..k])
      decreases |src| - (i + k)
    {
      SumOneMore(rest, k);
      length := length + src[i + k].length;
      sec := sec + src[i + k].sec;
      k := k + 1;
    }
    SumOneMore(rest, k);
    length := length + src[i + k].length;
    sec := sec + src[i + k].sec;
    TiedPrefixIs(rest, k);
  }

  /** Moving the head of the rest onto the end of the part already built. */
  lemma ConsStep(done: seq<Note>, h: Note, tail: seq<Note>, rest: seq<Note>, whole: seq<Note>)
    requires done + rest == whole && rest == [h] + tail
    ensures (done + [h]) + tail == whole
  {
    assert done + ([h] + tail) == (done + [h]) + tail;
  }

  /** The loop step of rescan_notes at an untied note: it is copied. */
  lemma {:induction false} MergeUntiedStep(src: seq<Note>, i: nat)
    requires i < |src| && TiesClosed(src[i..]) && !src[i].tied
    ensures TiesClosed(src[i + 1..])
    ensures MergeTies(src[i..]) == [src[i]] + MergeTies(src[i + 1..])
  {
    var rest := src[i..];
    assert rest[0] == src[i];
    assert rest[1..] == src[i + 1..];
  }

  /** The loop step of rescan_notes at a tied note: the run is merged. */
  lemma {:induction false} MergeTiedStep(src: seq<Note>, i: nat)
    requires i < |src| && TiesClosed(src[i..]) && src[i].tied
    ensures var k := TiedPrefix(src[i..]);
      i + k < |src| && TiesClosed(src[i + k + 1..])
      && MergeTies(src[i..]) == [MergedHead(src[i..][..k + 1])] + MergeTies(src[i + k + 1..])
  {
    var rest := src[i..];
    assert rest[0] == src[i] && rest != [];
    var k := TiedPrefix(rest);
    assert k < |rest|;
    assert rest[k + 1..] == src[i + k + 1..];
    assert TiesClosed(rest[k + 1..]);
    assert MergeTies(rest) == [MergedHead(rest[..k + 1])] + MergeTies(rest[k + 1..]);
  }

  lemma SumOneMore(ns: seq<Note>, k: nat)
    requires k < |ns|
    ensures SumLength(ns[..k + 1]) == SumLength(ns[..k]) + ns[k].length
    ensures SumSec(ns[..k + 1]) == SumSec(ns[..k]) + ns[k].sec
  {
    assert ns[..k + 1] == ns[..k] + [ns[k]];
    SumsAppend(ns[..k], [ns[k]]);
    assert [ns[k]][1..] == [];
  }

  lemma {:induction false} TiedPrefixIs(ns: seq<Note>, k: nat)
    requires k < |ns| && !ns[k].tied
    requires forall j :: 0 <= j < k ==> ns[j].tied
    ensures TiedPrefix(ns) == k
  {
    if k > 0 {
      TiedPrefixIs(ns[1..], k - 1);
    }
  }
}
