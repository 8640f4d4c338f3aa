/** sound.cpp: CMD SING. The tokenizer turns the text into VskSingItems, the
    bracket pass rewrites `[`…`]` groups, and the builder turns the items into
    a phrase. */
module Sing {
  import opened Base
  import opened Ast
  import opened Scanning
  import opened Notes
  import opened Phrases
  import opened Settings

  /** VskSingItem. A cleared item has no subcommand, no parameter, sign 0 and
      no dot. */
  datatype SingItem = SingItem(subcommand: string, param: string, sign: char, dot: bool)

  /** A bracket item, as the tokenizer pushes it. */
  function BracketItem(c: char): SingItem { SingItem([c], "", NUL, false) }

  // ---------------------------------------------------------------------------
  // Tokenizer (vsk_eval_sing_items), as functions of the scanner position

  /** The `(` parameter: copied with its parentheses and without blanks, up to
      the `)` that brings the depth back to 0, or to the end of the text. */
  function ParenParam(s: string, pos: nat, level: int, param: string): (r: (nat, string))
    requires pos <= |s|
    ensures pos <= r.0 <= |s|
    decreases |s| - pos
  {
    var c := At(s, pos);
    if c == NUL then (pos, param)
    else if c == '(' then ParenParam(s, pos + 1, level + 1, param + [c])
    else if c == ')' then
      (if level - 1 == 0 then (pos + 1, param + [c]) else ParenParam(s, pos + 1, level - 1, param + [c]))
    else ParenParam(s, pos + 1, level, if IsBlank(c) then param else param + [c])
  }

  /** The digit-run parameter: digits up to the first non-digit, which is read
      and then pushed back, except when reading it reached the end of the text. */
  function DigitParam(s: string, pos: nat, param: string): (r: (nat, string))
    requires pos <= |s|
    ensures pos <= r.0 <= |s|
    decreases |s| - pos
  {
    if pos >= |s| then (pos, param)
    else if !IsDigit(s[pos]) then (if pos + 1 < |s| then pos else pos + 1, param)
    else DigitParam(s, pos + 1, param + [s[pos]])
  }

  /** One item after its (upper-cased) letter `c`, which ends at `pos`: the
      subcommand (`RP` when an `R` is directly followed by `P`), an optional
      sign, an optional parameter and an optional dot; and where it ends. */
  function ItemAfter(s: string, pos: nat, c: char): (r: (SingItem, nat))
    requires pos <= |s|
    ensures pos <= r.1 <= |s|
  {
    var rp := c == 'R' && At(s, pos) == 'P';
    var sub := if rp then "RP" else [c];
    var p2 := if rp then pos + 1 else pos;
    var signed := At(s, p2) == '+' || At(s, p2) == '#' || At(s, p2) == '-';
    var sign := if signed then s[p2] else NUL;
    var p3 := if signed then p2 + 1 else p2;
    var pp := if At(s, p3) == '(' then ParenParam(s, p3, 0, [])
              else if IsDigit(At(s, p3)) then DigitParam(s, p3, [])
              else (p3, []);
    var dot := At(s, pp.0) == '.';
    (SingItem(sub, pp.1, sign, dot), if dot then pp.0 + 1 else pp.0)
  }

  /** The letters that may start an item. */
  predicate IsSingLetter(c: char)
  {
    c in "TOLCDEFGABXR"
  }

  /** The tokenizer loop from position `pos`, with the items read so far:
      blanks and `;` are skipped, `[` and `]` become items of their own, one of
      the item letters starts an item, and anything else fails. */
  function SingScan(s: string, pos: nat, acc: seq<SingItem>): Option<seq<SingItem>>
    requires pos <= |s|
    decreases |s| - pos
  {
    if pos == |s| then Some(acc)
    else
      var c := ToUpper(s[pos]);
      if IsBlank(c) || c == ';' then SingScan(s, pos + 1, acc)
      else if c == '[' || c == ']' then SingScan(s, pos + 1, acc + [BracketItem(c)])
      else if IsUpper(c) && IsSingLetter(c) then
        var r := ItemAfter(s, pos + 1, c);
        SingScan(s, r.1, acc + [r.0])
      else None
  }

  /** The items of a SING text before the bracket pass. */
  function SingTokens(s: string): Option<seq<SingItem>>
  {
    SingScan(s, 0, [])
  }

  /** The `(` parameter loop over the scanner. */
  method ScanParenParam(sc: Scanner) returns (param: string)
    modifies sc
    requires sc.Valid()
    ensures sc.Valid()
    ensures (sc.i, param) == ParenParam(sc.str, old(sc.i), 0, [])
  {
    ghost var start := sc.i;
    param := [];
    var level := 0;
    while true
      invariant sc.Valid() && start <= |sc.str|
      invariant ParenParam(sc.str, start, 0, []) == ParenParam(sc.str, sc.i, level, param)
      decreases |sc.str| - sc.i
    {
      var c := sc.Peek();
      if c == NUL {
        break;
      }
      if c == '(' {
        level := level + 1;
        param := param + [c];
        c := sc.Getch();
        continue;
      }
      if c == ')' {
        param := param + [c];
        c := sc.Getch();
        level := level - 1;
        if level == 0 {
          break;
        }
        continue;
      }
      c := sc.Getch();
      if !IsBlank(c) {
        param := param + [c];
      }
    }
  }

  /** The digit-run parameter loop over the scanner, with its final ungetch. */
  method ScanDigitParam(sc: Scanner) returns (param: string)
    modifies sc
    requires sc.Valid()
    ensures sc.Valid()
    ensures (sc.i, param) == DigitParam(sc.str, old(sc.i), [])
  {
    ghost var start := sc.i;
    param := [];
    while !sc.Eof()
      invariant sc.Valid() && start <= |sc.str|
      invariant DigitParam(sc.str, start, []) == DigitParam(sc.str, sc.i, param)
      decreases |sc.str| - sc.i
    {
      var c := sc.Getch();
      if !IsDigit(c) {
        if !sc.Eof() {
          sc.Ungetch();
        }
        return;
      }
      param := param + [c];
    }
  }

  /** The part of the tokenizer loop that reads one item after its letter. */
  method ScanItem(sc: Scanner, c: char) returns (item: SingItem)
    modifies sc
    requires sc.Valid()
    ensures sc.Valid()
    ensures (item, sc.i) == ItemAfter(sc.str, old(sc.i), c)
  {
    ghost var s := sc.str;
    ghost var p0 := sc.i;
    var sub := [c];
    if c == 'R' && sc.Peek() == 'P' {
      var p := sc.Getch();
      sub := sub + [p];
    }
    ghost var p2 := sc.i;
    assert p2 == (if c == 'R' && At(s, p0) == 'P' then p0 + 1 else p0);
    assert sub == (if c == 'R' && At(s, p0) == 'P' then "RP" else [c]);
    var sign := NUL;
    var ch := sc.Peek();
    if ch == '+' || ch == '#' || ch == '-' {
      sign := sc.Getch();
    }
    ghost var p3 := sc.i;
    var param := [];
    if sc.Peek() == '(' {
      param := ScanParenParam(sc);
    } else if IsDigit(sc.Peek()) {
      param := ScanDigitParam(sc);
    }
    ghost var pp := if At(s, p3) == '(' then ParenParam(s, p3, 0, [])
                    else if IsDigit(At(s, p3)) then DigitParam(s, p3, [])
                    else (p3, []);
    assert (sc.i, param) == pp;
    var dot := false;
    if sc.Peek() == '.' {
      dot := true;
      ch := sc.Getch();
    }
    item := SingItem(sub, param, sign, dot);
  }

  /** vsk_eval_sing_items: tokenizes with the scanner and then runs the bracket
      pass; false when the text holds a character no item can start with. */
  method EvalSingItems(expr: string) returns (ok: bool, items: seq<SingItem>)
    ensures ok == SingTokens(expr).Some?
    ensures ok ==> items == ExpandSing(SingTokens(expr).value)
  {
    var sc := new Scanner(expr);
    items := [];
    while !sc.Eof()
      invariant sc.Valid() && sc.str == expr
      invariant SingTokens(expr) == SingScan(expr, sc.i, items)
      decreases |expr| - sc.i
    {
      var c := sc.Getch();
      c := ToUpper(c);
      if IsBlank(c) || c == ';' {
        continue;
      }
      if c == '[' || c == ']' {
        items := items + [BracketItem(c)];
        continue;
      }
      if !(IsUpper(c) && IsSingLetter(c)) {
        return false, items;
      }
      var item := ScanItem(sc, c);
      items := items + [item];
    }
    ok := true;
    items := ExpandSingItems(items);
  }

  // ---------------------------------------------------------------------------
  // Bracket pass (vsk_expand_sing_items)

  /** One scan of the bracket pass from index `i`: `repeat` is set (to 1) by an
      `RP` item, a `[` records its index and raises the depth, and a `]` lowers
      it; the first `]` back at depth 0 with `repeat` set is the group to
      rewrite, between the latest `[` and that `]`. */
  function RewriteScan(items: seq<SingItem>, i: nat, k: int, level: int, repeat: int): (r: Option<(nat, nat)>)
    requires i <= |items| && -1 <= k < i
    requires level > 0 ==> 0 <= k && items[k].subcommand == "["
    ensures r.Some? ==> 0 <= r.value.0 < r.value.1 < |items|
    ensures r.Some? ==> items[r.value.0].subcommand == "[" && items[r.value.1].subcommand == "]"
    decreases |items| - i
  {
    if i == |items| then None
    else
      var sub := items[i].subcommand;
      var repeat' := if sub == "RP" then 1 else repeat;
      var k' := if sub == "[" then i else k;
      var level' := if sub == "[" then level + 1 else level;
      if sub == "]" then
        if level' - 1 == 0 && repeat' != 0 then Some((k', i))
        else RewriteScan(items, i + 1, k', level' - 1, repeat')
      else RewriteScan(items, i + 1, k', level', repeat')
  }

  function FindGroup(items: seq<SingItem>): (r: Option<(nat, nat)>)
    ensures r.Some? ==> 0 <= r.value.0 < r.value.1 < |items|
    ensures r.Some? ==> items[r.value.0].subcommand == "[" && items[r.value.1].subcommand == "]"
  {
    RewriteScan(items, 0, -1, 0, 0)
  }

  /** The group between `k` and `i` replaced by one copy of its interior. */
  function Unbracket(items: seq<SingItem>, k: nat, i: nat): (r: seq<SingItem>)
    requires k < i < |items|
    ensures |r| == |items| - 2
  {
    items[..k] + items[k + 1..i] + items[i + 1..]
  }

  /** vsk_expand_sing_items: rewrite groups until none is left. */
  function ExpandSing(items: seq<SingItem>): seq<SingItem>
    decreases |items|
  {
    match FindGroup(items)
    case None => items
    case Some(g) => ExpandSing(Unbracket(items, g.0, g.1))
  }

  /** `repeat` copies of a sequence. */
  function Copies(sub: seq<SingItem>, n: nat): seq<SingItem>
  {
    if n == 0 then [] else Copies(sub, n - 1) + sub
  }

  /** The for loop of the bracket pass, which either finds a group to rewrite
      or runs to the end of the list. */
  method ScanForGroup(items: seq<SingItem>) returns (found: bool, k: nat, i: nat, repeat: int)
    ensures found == FindGroup(items).Some?
    ensures found ==> (k, i) == FindGroup(items).value && repeat == 1
  {
    var kk := -1;
    var level := 0;
    repeat := 0;
    i := 0;
    while i < |items|
      invariant i <= |items| && -1 <= kk < i
      invariant level > 0 ==> 0 <= kk && items[kk].subcommand == "["
      invariant repeat == 0 || repeat == 1
      invariant FindGroup(items) == RewriteScan(items, i, kk, level, repeat)
      decreases |items| - i
    {
      if items[i].subcommand == "RP" {
        repeat := 1;
      }
      if items[i].subcommand == "[" {
        kk := i;
        level := level + 1;
      }
      if items[i].subcommand == "]" {
        level := level - 1;
        if level == 0 && repeat != 0 {
          return true, kk, i, repeat;
        }
      }
      i := i + 1;
    }
    return false, 0, 0, repeat;
  }

  /** vsk_expand_sing_items over the item list; always succeeds. */
  method ExpandSingItems(items: seq<SingItem>) returns (r: seq<SingItem>)
    ensures r == ExpandSing(items)
  {
    r := items;
    while true
      invariant ExpandSing(r) == ExpandSing(items)
      decreases |r|
    {
      var found, k, i, repeat := ScanForGroup(r);
      if !found {
        return;
      }
      var sub := r[k + 1..i];
      var children: seq<SingItem> := [];
      var m := 0;
      while m < repeat
        invariant 0 <= m <= repeat
        invariant children == Copies(sub, m)
      {
        children := children + sub;
        m := m + 1;
      }
      assert children == sub;
      r := r[..k] + children + r[i + 1..];
    }
  }

  // ---------------------------------------------------------------------------
  // Builder (vsk_phrase_from_sing_items)

  /** vsk_get_sing_param: no value for an empty parameter, atoi otherwise. */
  function SingParam(item: SingItem): (p: Option<int>)
    ensures p.Some? <==> item.param != []
    ensures p.Some? ==> p.value == Atoi(item.param)
  {
    if item.param == [] then None else Some(EvalText(item.param).ToInt())
  }

  /** What building did: whether it succeeded, and the phrase's setting and
      notes at the end (at the failing item when it failed). */
  datatype Built = Built(ok: bool, setting: SoundSetting, notes: seq<Note>)

  /** What one item does: fail, or give the new setting and the notes it adds. */
  datatype Step = Fail | Next(setting: SoundSetting, added: seq<Note>)

  /** One pass of the builder loop. */
  function SingStep(s: SoundSetting, item: SingItem): (r: Step)
    requires s.tempo != 0
    ensures r.Next? ==> r.setting.tempo != 0 && |r.added| <= 1
  {
    var ch := At(item.subcommand, 0);
    var p := SingParam(item);
    if ch == 'T' then
      if p.Some? && 48 <= p.value <= 255 then Next(s.(tempo := p.value), []) else Fail
    else if ch == 'O' then
      if p.Some? && 3 <= p.value <= 6 then Next(s.(octave := p.value - 1), []) else Fail
    else if ch == 'L' then
      if p.Some? && 1 <= p.value <= 32 then Next(s.(length := 96.0 / p.value as real), []) else Fail
    else if ch in "CDEFGABR" then
      if p.Some? && !(1 <= p.value <= 32) then Fail
      else
        var length := if p.Some? then (96 / p.value) as real else s.length;
        Next(s, [SettingNote(s, ch, item.dot, length, item.sign, s.quantity, false)])
    else Next(s, [])
  }

  /** The builder loop over the remaining items. */
  function BuildSing(s: SoundSetting, notes: seq<Note>, items: seq<SingItem>): Built
    requires s.tempo != 0
    decreases |items|
  {
    if items == [] then Built(true, s, notes)
    else
      match SingStep(s, items[0])
      case Fail => Built(false, s, notes)
      case Next(s', added) => BuildSing(s', notes + added, items[1..])
  }

  /** The body of the builder loop for one item. */
  method ApplySingItem(phrase: Phrase, item: SingItem) returns (ok: bool)
    modifies phrase
    requires phrase.setting.tempo != 0
    ensures phrase.goal == old(phrase.goal) && phrase.actions == old(phrase.actions)
    ensures var r := SingStep(old(phrase.setting), item);
            ok == r.Next?
            && (ok ==> phrase.setting == r.setting && phrase.notes == old(phrase.notes) + r.added)
            && (!ok ==> phrase.setting == old(phrase.setting) && phrase.notes == old(phrase.notes))
  {
    var ch := At(item.subcommand, 0);
    var p := SingParam(item);
    if ch == 'T' {
      if p.Some? && 48 <= p.value <= 255 {
        phrase.SetSetting(phrase.setting.(tempo := p.value));
      } else {
        return false;
      }
    } else if ch == 'O' {
      if p.Some? && 3 <= p.value <= 6 {
        phrase.SetSetting(phrase.setting.(octave := p.value - 1));
      } else {
        return false;
      }
    } else if ch == 'L' {
      if p.Some? && 1 <= p.value <= 32 {
        phrase.SetSetting(phrase.setting.(length := 96.0 / p.value as real));
      } else {
        return false;
      }
    } else if ch in "CDEFGABR" {
      var length: real;
      if p.Some? {
        if 1 <= p.value <= 32 {
          length := (96 / p.value) as real;
        } else {
          return false;
        }
      } else {
        length := phrase.setting.length;
      }
      phrase.AddNoteSigned(ch, item.dot, length, item.sign);
    } else {
      assert phrase.notes == phrase.notes + [];
    }
    ok := true;
  }

  /** vsk_phrase_from_sing_items. */
  method PhraseFromSingItems(phrase: Phrase, items: seq<SingItem>) returns (ok: bool)
    modifies phrase
    requires phrase.setting.tempo != 0
    ensures var b := BuildSing(old(phrase.setting), old(phrase.notes), items);
            ok == b.ok && phrase.setting == b.setting && phrase.notes == b.notes
    ensures phrase.goal == old(phrase.goal) && phrase.actions == old(phrase.actions)
  {
    var j := 0;
    while j < |items|
      invariant j <= |items| && phrase.setting.tempo != 0
      invariant BuildSing(old(phrase.setting), old(phrase.notes), items)
             == BuildSing(phrase.setting, phrase.notes, items[j..])
      invariant phrase.goal == old(phrase.goal) && phrase.actions == old(phrase.actions)
      decreases |items| - j
    {
      assert items[j..][0] == items[j] && items[j..][1..] == items[j + 1..];
      ok := ApplySingItem(phrase, items[j]);
      if !ok {
        return;
      }
      j := j + 1;
    }
    assert items[j..] == [];
    ok := true;
  }

  /** vsk_sound_sing up to playback: tokenize, build a phrase from SSG
      channel 0's setting with FM off, and write the setting back only when
      both succeeded. The block to hand to the player is returned. */
  method SoundSing(store: SettingStore, str: string) returns (ok: bool, block: seq<Phrase>)
    modifies store
    requires store.Valid() && store.ssg[0].tempo != 0
    ensures store.Valid() && store.fm == old(store.fm)
    ensures var t := SingTokens(str);
            var b := if t.Some? then BuildSing(old(store.ssg[0]).(fm := false), [], ExpandSing(t.value))
                     else Built(false, old(store.ssg[0]), []);
            ok == b.ok
            && store.ssg == (if ok then old(store.ssg)[0 := b.setting] else old(store.ssg))
            && (ok ==> |block| == 1 && block[0].notes == b.notes && block[0].setting == b.setting)
    ensures ok ==> fresh(block[0])
  {
    var parsed, items := EvalSingItems(str);
    if !parsed {
      return false, [];
    }
    var phrase := new Phrase(store.ssg[0].(fm := false));
    var built := PhraseFromSingItems(phrase, items);
    if !built {
      return false, [];
    }
    block := [phrase];
    store.SetSsg(0, phrase.setting);
    ok := true;
  }

  // ---------------------------------------------------------------------------
  // Properties

  /** `R` directly followed by `P` (exactly, not `p`) is the RP subcommand. */
  lemma RestOrRepeat(s: string, pos: nat)
    requires pos <= |s|
    ensures ItemAfter(s, pos, 'R').0.subcommand == (if At(s, pos) == 'P' then "RP" else "R")
  {
  }

  /** A character no item can start with fails the whole text. */
  lemma IllegalCharacterFails(s: string, pos: nat, acc: seq<SingItem>)
    requires pos < |s|
    requires var c := ToUpper(s[pos]);
             !IsBlank(c) && c != ';' && c != '[' && c != ']' && !(IsUpper(c) && IsSingLetter(c))
    ensures SingScan(s, pos, acc) == None
  {
  }

  /** Blanks and `;` produce no item. */
  lemma {:induction false} SeparatorsProduceNothing(s: string, pos: nat, acc: seq<SingItem>)
    requires pos <= |s|
    requires forall j :: pos <= j < |s| ==> IsBlank(s[j]) || s[j] == ';'
    ensures SingScan(s, pos, acc) == Some(acc)
    decreases |s| - pos
  {
    if pos < |s| {
      SeparatorsProduceNothing(s, pos + 1, acc);
    }
  }

  /** A digit run ends at the first non-digit, which is re-read after the run
      unless it is the last character of the text: there it is consumed and
      lost (so `C4.` has no dot, and `C4D` has no `D`). */
  lemma {:induction false} DigitRun(d: string, c: char, t: string, pos: nat, param: string)
    requires AllDigits(d) && !IsDigit(c)
    ensures DigitParam(d + [c] + t, 0, []) == (if t == [] then |d| + 1 else |d|, d)
  {
    DigitRunFrom(d + [c] + t, 0, |d|, []);
    assert (d + [c] + t)[0..|d|] == d;
    assert [] + d == d;
  }

  lemma {:induction false} DigitRunFrom(s: string, pos: nat, end: nat, param: string)
    requires pos <= end < |s|
    requires forall j :: pos <= j < end ==> IsDigit(s[j])
    requires !IsDigit(s[end])
    ensures DigitParam(s, pos, param) == (if end + 1 < |s| then end else end + 1, param + s[pos..end])
    decreases end - pos
  {
    if pos < end {
      DigitRunFrom(s, pos + 1, end, param + [s[pos]]);
      assert param + [s[pos]] + s[pos + 1..end] == param + s[pos..end];
    } else {
      assert s[pos..end] == [];
      assert param + [] == param;
    }
  }

  /** A dot that ends the text right after a length is dropped: `C4.` gives
      one undotted C. */
  lemma FinalDotAfterLengthLost()
    ensures SingTokens("C4.") == Some([SingItem("C", "4", NUL, false)])
  {
    var c4 := SingItem("C", "4", NUL, false);
    var s := "C4.";
    assert |s| == 3 && s[0] == 'C' && s[1] == '4' && s[2] == '.';
    assert ToUpper(s[0]) == 'C' && IsSingLetter('C');
    DigitRunFrom(s, 1, 2, []);
    assert DigitParam(s, 1, []) == (3, [] + s[1..2]);
    assert [] + s[1..2] == "4";
    assert ItemAfter(s, 1, 'C') == (c4, 3);
    assert [] + [c4] == [c4];
    assert SingScan(s, 0, []) == SingScan(s, 3, [c4]);
  }

  /** Likewise a note letter: `C4D` gives no D. */
  lemma FinalNoteAfterLengthLost()
    ensures SingTokens("C4D") == Some([SingItem("C", "4", NUL, false)])
  {
    var c4 := SingItem("C", "4", NUL, false);
    var u := "C4D";
    assert |u| == 3 && u[0] == 'C' && u[1] == '4' && u[2] == 'D';
    assert ToUpper(u[0]) == 'C' && IsSingLetter('C');
    DigitRunFrom(u, 1, 2, []);
    assert DigitParam(u, 1, []) == (3, [] + u[1..2]);
    assert [] + u[1..2] == "4";
    assert ItemAfter(u, 1, 'C') == (c4, 3);
    assert [] + [c4] == [c4];
    assert SingScan(u, 0, []) == SingScan(u, 3, [c4]);
  }

  /** With a character after it, the dot is kept: `C4.D` gives a dotted C
      and a D. */
  lemma DotBeforeNoteKept()
    ensures SingTokens("C4.D") == Some([SingItem("C", "4", NUL, true), SingItem("D", "", NUL, false)])
  {
    var t := "C4.D";
    var c4dot := SingItem("C", "4", NUL, true);
    var d := SingItem("D", "", NUL, false);
    assert |t| == 4 && t[0] == 'C' && t[1] == '4' && t[2] == '.' && t[3] == 'D';
    assert ToUpper(t[0]) == 'C' && IsSingLetter('C');
    DigitRunFrom(t, 1, 2, []);
    assert DigitParam(t, 1, []) == (2, [] + t[1..2]);
    assert [] + t[1..2] == "4";
    assert ItemAfter(t, 1, 'C') == (c4dot, 3);
    assert ToUpper(t[3]) == 'D' && IsSingLetter('D');
    assert ItemAfter(t, 4, 'D') == (d, 4);
    assert [] + [c4dot] == [c4dot];
    assert [c4dot] + [d] == [c4dot, d];
    assert SingScan(t, 3, [c4dot]) == SingScan(t, 4, [c4dot, d]);
    assert SingScan(t, 0, []) == SingScan(t, 3, [c4dot]);
  }

  lemma {:induction false} RewriteScanNoRepeat(items: seq<SingItem>, i: nat, k: int, level: int)
    requires i <= |items| && -1 <= k < i
    requires level > 0 ==> 0 <= k && items[k].subcommand == "["
    requires forall j :: i <= j < |items| ==> items[j].subcommand != "RP"
    ensures RewriteScan(items, i, k, level, 0) == None
    decreases |items| - i
  {
    if i < |items| {
      var sub := items[i].subcommand;
      var k' := if sub == "[" then i else k;
      var level' := if sub == "[" then level + 1 else level;
      if sub == "]" {
        RewriteScanNoRepeat(items, i + 1, k', level' - 1);
      } else {
        RewriteScanNoRepeat(items, i + 1, k', level');
      }
    }
  }

  /** Without an RP item the bracket pass changes nothing. */
  lemma ExpandWithoutRepeat(items: seq<SingItem>)
    requires forall j :: 0 <= j < |items| ==> items[j].subcommand != "RP"
    ensures ExpandSing(items) == items
  {
    RewriteScanNoRepeat(items, 0, -1, 0);
  }

  /** The items that are not brackets, in order. */
  function NonBrackets(items: seq<SingItem>): seq<SingItem>
  {
    if items == [] then []
    else (if items[0].subcommand == "[" || items[0].subcommand == "]" then [] else [items[0]])
         + NonBrackets(items[1..])
  }

  lemma {:induction false} NonBracketsAppend(a: seq<SingItem>, b: seq<SingItem>)
    ensures NonBrackets(a + b) == NonBrackets(a) + NonBrackets(b)
  {
    if a == [] {
      assert a + b == b;
    } else {
      assert (a + b)[0] == a[0];
      assert (a + b)[1..] == a[1..] + b;
      NonBracketsAppend(a[1..], b);
    }
  }

  lemma {:induction false} DropBracket(x: seq<SingItem>, br: SingItem, y: seq<SingItem>)
    requires br.subcommand == "[" || br.subcommand == "]"
    ensures NonBrackets(x + [br] + y) == NonBrackets(x + y)
  {
    assert NonBrackets([br]) == [] by {
      assert NonBrackets([br]) == [] + NonBrackets([br][1..]) && [br][1..] == [];
    }
    assert x + [br] + y == x + ([br] + y);
    NonBracketsAppend(x, [br] + y);
    NonBracketsAppend([br], y);
    NonBracketsAppend(x, y);
  }

  lemma {:induction false} SplitAround(items: seq<SingItem>, k: nat, i: nat)
    requires k < i < |items|
    ensures items == items[..k] + [items[k]] + (items[k + 1..i] + [items[i]] + items[i + 1..])
  {
    assert items[i..] == [items[i]] + items[i + 1..];
    assert items[k + 1..] == items[k + 1..i] + items[i..];
    assert items[k..] == [items[k]] + items[k + 1..];
    assert items == items[..k] + items[k..];
  }

  lemma {:induction false} UnbracketKeepsOthers(items: seq<SingItem>, k: nat, i: nat)
    requires k < i < |items|
    requires items[k].subcommand == "[" && items[i].subcommand == "]"
    ensures NonBrackets(Unbracket(items, k, i)) == NonBrackets(items)
  {
    var a, b, c := items[..k], items[k + 1..i], items[i + 1..];
    var rest := b + [items[i]] + c;
    SplitAround(items, k, i);
    DropBracket(a, items[k], rest);
    assert a + rest == (a + b) + [items[i]] + c;
    DropBracket(a + b, items[i], c);
    assert Unbracket(items, k, i) == (a + b) + c;
  }

  /** The bracket pass removes only bracket items, two at a time, and leaves a
      list in which no group is left to rewrite (so a second pass is a no-op). */
  lemma {:induction false} ExpandSingProperties(items: seq<SingItem>)
    ensures NonBrackets(ExpandSing(items)) == NonBrackets(items)
    ensures |ExpandSing(items)| <= |items| && (|items| - |ExpandSing(items)|) % 2 == 0
    ensures FindGroup(ExpandSing(items)).None?
    ensures ExpandSing(ExpandSing(items)) == ExpandSing(items)
    decreases |items|
  {
    match FindGroup(items)
    case None =>
    case Some(g) =>
      var u := Unbracket(items, g.0, g.1);
      UnbracketKeepsOthers(items, g.0, g.1);
      ExpandSingProperties(u);
      assert ExpandSing(items) == ExpandSing(u);
      assert |u| == |items| - 2;
      var e := |ExpandSing(u)|;
      assert (|items| - e) % 2 == 0 by {
        EvenPlusTwo(|u| - e);
      }
  }

  lemma EvenPlusTwo(n: int)
    requires n % 2 == 0
    ensures (n + 2) % 2 == 0
  {
  }

  /** An RP before a group replaces the group by its interior once (the repeat
      count is always 1); an RP after the group is too late and the brackets
      stay. */
  lemma RepeatPlacement(rp: SingItem, x: SingItem)
    requires rp.subcommand == "RP" && x.subcommand == "C"
    ensures ExpandSing([rp, BracketItem('['), x, BracketItem(']')]) == [rp, x]
    ensures ExpandSing([BracketItem('['), x, BracketItem(']'), rp])
         == [BracketItem('['), x, BracketItem(']'), rp]
  {
    var a := [rp, BracketItem('['), x, BracketItem(']')];
    assert RewriteScan(a, 3, 1, 1, 1) == Some((1, 3));
    assert RewriteScan(a, 2, 1, 1, 1) == RewriteScan(a, 3, 1, 1, 1);
    assert RewriteScan(a, 1, -1, 0, 1) == RewriteScan(a, 2, 1, 1, 1);
    assert FindGroup(a) == RewriteScan(a, 1, -1, 0, 1);
    assert Unbracket(a, 1, 3) == [rp, x];
    var ax := [rp, x];
    assert RewriteScan(ax, 2, -1, 0, 1) == None;
    assert RewriteScan(ax, 1, -1, 0, 1) == None;
    assert FindGroup(ax) == RewriteScan(ax, 1, -1, 0, 1);
    var b := [BracketItem('['), x, BracketItem(']'), rp];
    assert RewriteScan(b, 3, 0, 0, 0) == RewriteScan(b, 4, 0, 0, 1) == None;
    assert RewriteScan(b, 2, 0, 1, 0) == RewriteScan(b, 3, 0, 0, 0);
    assert RewriteScan(b, 1, 0, 1, 0) == RewriteScan(b, 2, 0, 1, 0);
    assert FindGroup(b) == RewriteScan(b, 1, 0, 1, 0);
  }
  /** The builder accepts `T` only in 48..255, `O` only in 3..6 (stored one
      lower) and `L` only in 1..32 (stored as 96/L); a missing parameter fails. */
  lemma BuildSingControls(s: SoundSetting, notes: seq<Note>, item: SingItem)
    requires s.tempo != 0
    ensures var b := BuildSing(s, notes, [item]);
      var p := SingParam(item);
      (At(item.subcommand, 0) == 'T' ==>
         b.ok == (p.Some? && 48 <= p.value <= 255) && (b.ok ==> b.setting == s.(tempo := p.value)))
      && (At(item.subcommand, 0) == 'O' ==>
         b.ok == (p.Some? && 3 <= p.value <= 6) && (b.ok ==> b.setting == s.(octave := p.value - 1)))
      && (At(item.subcommand, 0) == 'L' ==>
         b.ok == (p.Some? && 1 <= p.value <= 32) && (b.ok ==> b.setting == s.(length := 96.0 / p.value as real)))
  {
    assert [item][1..] == [];
  }

  /** A note or rest item: an explicit length 1..32 gives 96 div L length
      units, no parameter gives the setting's length, anything else fails; on
      success exactly one note is added and the setting is unchanged. */
  lemma {:induction false} BuildSingNote(s: SoundSetting, notes: seq<Note>, item: SingItem)
    requires s.tempo != 0 && At(item.subcommand, 0) in "CDEFGABR"
    ensures var b := BuildSing(s, notes, [item]);
      var p := SingParam(item);
      b.ok == (p.None? || 1 <= p.value <= 32)
      && (b.ok ==> b.setting == s && |b.notes| == |notes| + 1 && b.notes[..|notes|] == notes
                   && b.notes[|notes|].length == (if p.Some? then (96 / p.value) as real else s.length)
                   && b.notes[|notes|].key == KeyFromChar(At(item.subcommand, 0), item.sign))
  {
    var ch, p := At(item.subcommand, 0), SingParam(item);
    assert [item][1..] == [];
    assert ch != 'T' && ch != 'O' && ch != 'L';
    if p.Some? && !(1 <= p.value <= 32) {
      assert SingStep(s, item) == Fail;
    } else {
      var length := if p.Some? then (96 / p.value) as real else s.length;
      var n := SettingNote(s, ch, item.dot, length, item.sign, s.quantity, false);
      assert SingStep(s, item) == Next(s, [n]);
      assert BuildSing(s, notes, [item]) == BuildSing(s, notes + [n], []);
      assert (notes + [n])[..|notes|] == notes;
    }
  }

  /** `RP(2)` reaches the builder as a rest whose parameter `(2)` evaluates
      to 0, out of range, so `[CDE]RP(2)` fails to build. */
  lemma {:induction false} RepeatWithCountFails(s: SoundSetting, notes: seq<Note>)
    requires s.tempo != 0
    ensures !BuildSing(s, notes, [SingItem("RP", "(2)", NUL, false)]).ok
  {
    var item := SingItem("RP", "(2)", NUL, false);
    AtoiOfParenthesised("(2)");
    assert SingParam(item) == Some(0);
    assert At(item.subcommand, 0) == 'R';
    assert SingStep(s, item) == Fail;
  }

  /** Building only appends notes: the notes before stay as they were. */
  lemma {:induction false} BuildSingAppends(s: SoundSetting, notes: seq<Note>, items: seq<SingItem>)
    requires s.tempo != 0
    ensures var b := BuildSing(s, notes, items);
            |notes| <= |b.notes| && b.notes[..|notes|] == notes && b.setting.tempo != 0
    decreases |items|
  {
    if items != [] {
      match SingStep(s, items[0])
      case Fail =>
      case Next(s', added) =>
        BuildSingAppends(s', notes + added, items[1..]);
        var b := BuildSing(s', notes + added, items[1..]);
        assert b.notes[..|notes|] == b.notes[..|notes + added|][..|notes|];
    }
  }
}
