/** cmd_play.cpp, pass 1 and pass 2 of CMD PLAY: the `[name]` expansion, the
    tokenizer over the C string (vsk_eval_cmd_play_items with
    vsk_scan_play_param) and the tuplet pass (vsk_rescan_play_items). */
module PlayText {
  import opened Base
  import opened Ast
  import opened Variables

  /** VskPlayItem. The declared second parameter m_param2 is never written or
      read, so it has no field here. */
  datatype PlayItem = PlayItem(subcommand: string, param: string, sign: char, dot: bool,
                               tied: bool, pletCount: int, pletL: int)

  /** An item just cleared, with its subcommand set. */
  function Cleared(sub: string): PlayItem
  {
    PlayItem(sub, "", NUL, false, false, 1, 0)
  }

  // ---------------------------------------------------------------------------
  // Parameters (vsk_scan_play_param), over the C string s from position pos

  /** `while (vsk_isblank(*pch)) ++pch;` */
  function SkipBlanks(s: string, pos: nat): (p: nat)
    requires pos <= |s|
    ensures pos <= p <= |s| && !IsBlank(At(s, p))
    ensures forall j :: pos <= j < p ==> IsBlank(s[j])
    decreases |s| - pos
  {
    if IsBlank(At(s, pos)) then SkipBlanks(s, pos + 1) else pos
  }

  /** A digit parameter: digits, with blanks among them skipped, up to the
      first character that is neither. */
  function DigitRun(s: string, pos: nat, param: string): (r: (nat, string))
    requires pos <= |s|
    ensures pos <= r.0 <= |s| && !IsBlank(At(s, r.0)) && !IsDigit(At(s, r.0))
    decreases |s| - pos
  {
    var c := At(s, pos);
    if IsBlank(c) then DigitRun(s, pos + 1, param)
    else if IsDigit(c) then DigitRun(s, pos + 1, param + [c])
    else (pos, param)
  }

  /** An `=` parameter: the non-blank characters up to `;`, which is consumed;
      no `;` before the end of the text is a failure. */
  function EqualsRun(s: string, pos: nat, param: string): (r: Option<(nat, string)>)
    requires pos <= |s|
    ensures r.Some? ==> pos < r.value.0 <= |s| && s[r.value.0 - 1] == ';'
    decreases |s| - pos
  {
    var c := At(s, pos);
    if c == NUL then None
    else if c == ';' then Some((pos + 1, param))
    else EqualsRun(s, pos + 1, if IsBlank(c) then param else param + [c])
  }

  /** vsk_scan_play_param: the end position and the parameter text, or a
      failure for an unterminated `=` parameter. */
  function PlayParam(s: string, pos: nat): (r: Option<(nat, string)>)
    requires pos <= |s|
    ensures r.Some? ==> pos <= r.value.0 <= |s|
  {
    var p := SkipBlanks(s, pos);
    if IsDigit(At(s, p)) then Some(DigitRun(s, p, []))
    else if At(s, p) == '=' then EqualsRun(s, p + 1, [])
    else Some((p, []))
  }

  method SkipBlanksLoop(s: string, pos: nat) returns (p: nat)
    requires pos <= |s|
    ensures p == SkipBlanks(s, pos)
  {
    p := pos;
    while IsBlank(At(s, p))
      invariant pos <= p <= |s| && SkipBlanks(s, p) == SkipBlanks(s, pos)
      decreases |s| - p
    {
      p := p + 1;
    }
  }

  method ScanPlayParam(s: string, pos: nat) returns (ok: bool, q: nat, param: string)
    requires pos <= |s|
    ensures ok == PlayParam(s, pos).Some?
    ensures ok ==> (q, param) == PlayParam(s, pos).value
  {
    q := SkipBlanksLoop(s, pos);
    param := [];
    ghost var p := q;
    if IsDigit(At(s, q)) {
      while true
        invariant p <= q <= |s| && DigitRun(s, p, []) == DigitRun(s, q, param)
        decreases |s| - q
      {
        if IsBlank(At(s, q)) {
          q := q + 1;
        } else if !IsDigit(At(s, q)) {
          break;
        } else {
          param := param + [At(s, q)];
          q := q + 1;
        }
      }
      ok := true;
    } else if At(s, q) == '=' {
      q := q + 1;
      while At(s, q) != NUL && At(s, q) != ';'
        invariant p < q <= |s| && EqualsRun(s, p + 1, []) == EqualsRun(s, q, param)
        decreases |s| - q
      {
        if !IsBlank(At(s, q)) {
          param := param + [At(s, q)];
        }
        q := q + 1;
      }
      if At(s, q) == NUL {
        return false, q, param;
      }
      q := q + 1;
      ok := true;
    } else {
      ok := true;
    }
  }

  // ---------------------------------------------------------------------------
  // Tokenizer (vsk_eval_cmd_play_items)

  /** The characters that may start an item. */
  predicate IsPlayLetter(c: char)
  {
    c in "<>{}Y,RNCDEFGAB@MSVLQOTZ"
  }

  /** Attach the dot that may follow a parameter. */
  function WithDot(s: string, item: PlayItem, r: Option<(nat, string)>): (o: Option<(PlayItem, nat)>)
    requires r.Some? ==> r.value.0 <= |s|
    ensures o.Some? ==> r.Some? && r.value.0 <= o.value.1 <= |s|
  {
    match r
    case None => None
    case Some(q) =>
      var dot := At(s, q.0) == '.';
      Some((item.(param := q.1, dot := dot), if dot then q.0 + 1 else q.0))
  }

  /** A parameter only. */
  function WithParam(item: PlayItem, r: Option<(nat, string)>): (o: Option<(PlayItem, nat)>)
    ensures o.Some? <==> r.Some?
    ensures o.Some? ==> o.value.1 == r.value.0
  {
    match r
    case None => None
    case Some(q) => Some((item.(param := q.1), q.0))
  }

  /** One item after its upper-cased letter `c`, which ends at `p`: which
      parts it takes depends on the letter. */
  function ItemAfter(s: string, p: nat, c: char): (r: Option<(PlayItem, nat)>)
    requires p <= |s| && IsPlayLetter(c)
    ensures r.Some? ==> p <= r.value.1 <= |s|
  {
    if c == '<' || c == '>' || c == '{' then Some((Cleared([c]), p))
    else if c == 'R' || c == 'N' then WithDot(s, Cleared([c]), PlayParam(s, p))
    else if c in "CDEFGAB" then
      var q := SkipBlanks(s, p);
      var signed := At(s, q) == '-' || At(s, q) == '#' || At(s, q) == '+';
      var sign := if signed then s[q] else NUL;
      WithDot(s, Cleared([c]).(sign := sign), PlayParam(s, if signed then q + 1 else q))
    else if c == '@' then
      var c2 := ToUpper(At(s, p));
      if c2 == 'V' || c2 == 'W' then WithParam(Cleared(['@', c2]), PlayParam(s, p + 1))
      else WithParam(Cleared("@"), PlayParam(s, p))
    else WithParam(Cleared([c]), PlayParam(s, p))
  }

  /** `&` and `^`: the tie flag is set on the previous item, if there is one. */
  function TieLast(acc: seq<PlayItem>): (r: seq<PlayItem>)
    ensures |r| == |acc|
    ensures acc != [] ==> r[|r| - 1].tied && r[..|r| - 1] == acc[..|acc| - 1]
  {
    if acc == [] then [] else acc[|acc| - 1 := acc[|acc| - 1].(tied := true)]
  }

  /** The tokenizer loop from position `pos` of the expanded text, with the
      items read so far; it stops at the terminator. */
  function PlayScan(s: string, pos: nat, acc: seq<PlayItem>): Option<seq<PlayItem>>
    requires pos <= |s|
    decreases |s| - pos
  {
    if At(s, pos) == NUL then Some(acc)
    else
      var c := ToUpper(s[pos]);
      if IsBlank(c) then PlayScan(s, pos + 1, acc)
      else if c == '&' || c == '^' then PlayScan(s, pos + 1, TieLast(acc))
      else if IsPlayLetter(c) then
        match ItemAfter(s, pos + 1, c)
        case None => None
        case Some(r) => PlayScan(s, r.1, acc + [r.0])
      else None
  }

  /** What vsk_eval_cmd_play_items ends with: the items, a rejected text, or
      the circular-reference exception of the `[name]` expansion. */
  datatype PlayParse = Parsed(items: seq<PlayItem>) | Illegal | CircularRef

  /** vsk_eval_cmd_play_items as a function of the variable table. */
  function PlayTokens(vars: map<string, string>, expr: string): PlayParse
  {
    match ExpandFrom(Brackets, vars, {}, expr)
    case Circular => CircularRef
    case Done(str) =>
      match PlayScan(str, 0, [])
      case None => Illegal
      case Some(items) => Parsed(RescanPlay(items))
  }

  /** A note, `N` or `R`: for a note letter blanks and a sign first, then the
      parameter and an optional dot. */
  method ScanNoteItem(s: string, p: nat, c: char) returns (r: Option<(PlayItem, nat)>)
    requires p <= |s| && (c == 'R' || c == 'N' || c in "CDEFGAB")
    ensures r == ItemAfter(s, p, c)
  {
    var item := Cleared([c]);
    var q := p;
    if c in "CDEFGAB" {
      q := SkipBlanksLoop(s, p);
      if At(s, q) == '-' || At(s, q) == '#' || At(s, q) == '+' {
        item := item.(sign := s[q]);
        q := q + 1;
      }
    }
    var ok, q2, param := ScanPlayParam(s, q);
    if !ok {
      return None;
    }
    item := item.(param := param);
    if At(s, q2) == '.' {
      item := item.(dot := true);
      q2 := q2 + 1;
    }
    r := Some((item, q2));
  }

  /** `@`: the next character is read upper-cased; unless it is V or W it is
      put back. */
  method ScanAtItem(s: string, p: nat) returns (r: Option<(PlayItem, nat)>)
    requires p <= |s|
    ensures r == ItemAfter(s, p, '@')
  {
    var q := p;
    var c2 := ToUpper(At(s, q));
    q := q + 1;
    var item;
    if c2 == 'V' || c2 == 'W' {
      item := Cleared(['@', c2]);
    } else {
      q := q - 1;
      item := Cleared("@");
    }
    var ok, q2, param := ScanPlayParam(s, q);
    if !ok {
      return None;
    }
    r := Some((item.(param := param), q2));
  }

  /** The switch of the tokenizer loop, from the letter on. */
  method ScanItem(s: string, p: nat, c: char) returns (r: Option<(PlayItem, nat)>)
    requires p <= |s| && IsPlayLetter(c)
    ensures r == ItemAfter(s, p, c)
  {
    if c == '<' || c == '>' || c == '{' {
      return Some((Cleared([c]), p));
    }
    if c == 'R' || c == 'N' || c in "CDEFGAB" {
      r := ScanNoteItem(s, p, c);
      return;
    }
    if c == '@' {
      r := ScanAtItem(s, p);
      return;
    }
    var ok, q, param := ScanPlayParam(s, p);
    if !ok {
      return None;
    }
    r := Some((Cleared([c]).(param := param), q));
  }

  /** vsk_eval_cmd_play_items: expand `[name]` placeholders, tokenize, then run
      the tuplet pass. */
  method EvalCmdPlayItems(vars: map<string, string>, expr: string) returns (r: PlayParse)
    ensures r == PlayTokens(vars, expr)
  {
    var e := ReplaceTop(Brackets, vars, expr);
    if e.Circular? {
      return CircularRef;
    }
    var str := e.text;
    var pos := 0;
    var items: seq<PlayItem> := [];
    while At(str, pos) != NUL
      invariant pos <= |str| && PlayScan(str, 0, []) == PlayScan(str, pos, items)
      decreases |str| - pos
    {
      var next := ScanOne(str, pos, items);
      if next.None? {
        return Illegal;
      }
      pos, items := next.value.0, next.value.1;
    }
    items := RescanPlayItems(items);
    r := Parsed(items);
  }

  /** One pass of the tokenizer loop: a blank is skipped, a tie flags the
      last item, a letter reads its item, anything else is refused. */
  method ScanOne(str: string, pos: nat, items: seq<PlayItem>) returns (next: Option<(nat, seq<PlayItem>)>)
    requires pos <= |str| && At(str, pos) != NUL
    ensures next.None? ==> PlayScan(str, pos, items).None?
    ensures next.Some? ==>
              pos < next.value.0 <= |str| && PlayScan(str, pos, items) == PlayScan(str, next.value.0, next.value.1)
  {
    var c := ToUpper(str[pos]);
    if IsBlank(c) {
      return Some((pos + 1, items));
    }
    if c == '&' || c == '^' {
      var tied := items;
      if |items| > 0 {
        tied := items[|items| - 1 := items[|items| - 1].(tied := true)];
      }
      assert tied == TieLast(items);
      return Some((pos + 1, tied));
    }
    if !IsPlayLetter(c) {
      return None;
    }
    var step := ScanItem(str, pos + 1, c);
    if step.None? {
      return None;
    }
    return Some((step.value.1, items + [step.value.0]));
  }

  // ---------------------------------------------------------------------------
  // Tuplet pass (vsk_rescan_play_items)

  /** The group from `k` to `i`: every interior item gets the number of
      interior items and `atoi` of the closing brace's parameter, and both
      braces are erased. */
  function Mark(items: seq<PlayItem>, k: nat, i: nat): (r: seq<PlayItem>)
    requires k < i < |items|
    ensures |r| == |items| - 2
  {
    items[..k] + Retagged(items, k, i) + items[i + 1..]
  }

  /** The interior of the group from `k` to `i`, tagged with the group's
      size and `atoi` of the closing parameter. */
  function Retagged(items: seq<PlayItem>, k: nat, i: nat): (r: seq<PlayItem>)
    requires k < i < |items|
    ensures |r| == i - (k + 1)
    ensures forall j :: 0 <= j < |r| ==>
              r[j] == items[k + 1 + j].(pletCount := i - (k + 1), pletL := Atoi(items[i].param))
  {
    var count := i - (k + 1);
    seq(count, j requires 0 <= j < count => items[k + 1 + j].(pletCount := count, pletL := Atoi(items[i].param)))
  }

  /** The for loop of the tuplet pass from index `i`, with the latest `{` at
      `k` and the depth `level`. After a group the index is stepped back once
      and then advanced, so it stays where it was: the item that followed the
      `}` is not inspected. */
  function TupletScan(items: seq<PlayItem>, i: nat, k: int, level: int): seq<PlayItem>
    requires i <= |items| + 1 && -1 <= k
    requires level > 0 ==> 0 <= k < i && k < |items| && items[k].subcommand == "{"
    decreases |items| + 2 - i
  {
    if i >= |items| then items
    else
      var sub := items[i].subcommand;
      var k' := if sub == "{" then i else k;
      var level' := if sub == "{" then level + 1 else level;
      if sub == "}" then
        if level' - 1 == 0 then TupletScan(Mark(items, k', i), i, k', 0)
        else TupletScan(items, i + 1, k', level' - 1)
      else TupletScan(items, i + 1, k', level')
  }

  function RescanPlay(items: seq<PlayItem>): seq<PlayItem>
  {
    TupletScan(items, 0, -1, 0)
  }

  /** The marking loop followed by the two erasures gives Mark. */
  lemma MarkedThenErased(orig: seq<PlayItem>, r: seq<PlayItem>, k: nat, i: nat)
    requires k < i < |orig| && |r| == |orig|
    requires forall j :: 0 <= j < |r| && !(k < j < i) ==> r[j] == orig[j]
    requires forall j :: k < j < i ==>
               r[j] == orig[j].(pletCount := i - (k + 1), pletL := Atoi(orig[i].param))
    ensures var e := r[..i] + r[i + 1..]; e[..k] + e[k + 1..] == Mark(orig, k, i)
  {
    var e := r[..i] + r[i + 1..];
    var m := Mark(orig, k, i);
    var lhs := e[..k] + e[k + 1..];
    assert |lhs| == |m|;
    forall j | 0 <= j < |lhs|
      ensures lhs[j] == m[j]
    {
      if j < k {
        assert lhs[j] == r[j];
      } else if j < i - 1 {
        assert lhs[j] == r[j + 1];
      } else {
        assert lhs[j] == r[j + 2];
      }
    }
  }

  /** vsk_rescan_play_items over the item list, erasing in place. */
  method RescanPlayItems(items: seq<PlayItem>) returns (r: seq<PlayItem>)
    ensures r == RescanPlay(items)
  {
    r := items;
    var k: int := -1;
    var level := 0;
    var i := 0;
    while i < |r|
      invariant i <= |r| + 1 && -1 <= k
      invariant level > 0 ==> 0 <= k < i && k < |r| && r[k].subcommand == "{"
      invariant TupletScan(r, i, k, level) == RescanPlay(items)
      decreases |r| + 2 - i
    {
      if r[i].subcommand == "{" {
        k := i;
        level := level + 1;
      }
      if r[i].subcommand == "}" {
        level := level - 1;
        if level == 0 {
          ghost var orig := r;
          var count := i - (k + 1);
          var l := Atoi(r[i].param);
          var m := k + 1;
          while m < i
            invariant k + 1 <= m <= i && |r| == |orig|
            invariant forall j :: 0 <= j < |r| && !(k < j < m) ==> r[j] == orig[j]
            invariant forall j :: k < j < m ==> r[j] == orig[j].(pletCount := count, pletL := l)
          {
            r := r[m := r[m].(pletCount := count, pletL := l)];
            m := m + 1;
          }
          MarkedThenErased(orig, r, k, i);
          r := r[..i] + r[i + 1..];
          r := r[..k] + r[k + 1..];
          i := i - 1;
        }
      }
      i := i + 1;
    }
  }

  // ---------------------------------------------------------------------------
  // Properties

  /** A digit parameter holds only digits. */
  lemma {:induction false} DigitRunDigits(s: string, pos: nat, param: string)
    requires pos <= |s| && forall j :: 0 <= j < |param| ==> IsDigit(param[j])
    ensures var r := DigitRun(s, pos, param);
            |param| <= |r.1| && forall j :: 0 <= j < |r.1| ==> IsDigit(r.1[j])
    decreases |s| - pos
  {
    var c := At(s, pos);
    if IsBlank(c) {
      DigitRunDigits(s, pos + 1, param);
    } else if IsDigit(c) {
      DigitRunDigits(s, pos + 1, param + [c]);
    }
  }

  /** An `=` parameter with no `;` after it fails; one whose text has a `;`
      at `e` succeeds there when no `;` comes before. */
  lemma {:induction false} EqualsRunEnds(s: string, pos: nat, param: string)
    requires pos <= |s|
    ensures (forall j :: pos <= j < |s| ==> s[j] != ';' && s[j] != NUL) ==> EqualsRun(s, pos, param) == None
    decreases |s| - pos
  {
    if pos < |s| && s[pos] != NUL && s[pos] != ';' {
      EqualsRunEnds(s, pos + 1, if IsBlank(s[pos]) then param else param + [s[pos]]);
    }
  }

  /** Blanks inside a digit parameter are skipped. */
  lemma DigitParamSkipsBlanks()
    ensures PlayParam(" 1 2;", 0) == Some((4, "12"))
  {
    var s := " 1 2;";
    assert |s| == 5 && s[0] == ' ' && s[1] == '1' && s[2] == ' ' && s[3] == '2' && s[4] == ';';
    assert SkipBlanks(s, 1) == 1;
    assert SkipBlanks(s, 0) == 1;
    assert DigitRun(s, 4, "12") == (4, "12");
    assert "1" + ['2'] == "12";
    assert DigitRun(s, 3, "1") == DigitRun(s, 4, "12");
    assert DigitRun(s, 2, "1") == DigitRun(s, 3, "1");
    assert [] + ['1'] == "1";
    assert DigitRun(s, 1, []) == DigitRun(s, 2, "1");
  }

  /** An `=` parameter keeps only its non-blank characters and needs its `;`. */
  lemma EqualsParamExamples()
    ensures PlayParam("=A B;C", 0) == Some((5, "AB"))
    ensures PlayParam("=AB", 0) == None
  {
    var t := "=A B;C";
    assert |t| == 6 && t[0] == '=' && t[1] == 'A' && t[2] == ' ' && t[3] == 'B' && t[4] == ';';
    assert SkipBlanks(t, 0) == 0;
    assert EqualsRun(t, 4, "AB") == Some((5, "AB"));
    assert "A" + ['B'] == "AB";
    assert EqualsRun(t, 3, "A") == EqualsRun(t, 4, "AB");
    assert EqualsRun(t, 2, "A") == EqualsRun(t, 3, "A");
    assert [] + ['A'] == "A";
    assert EqualsRun(t, 1, []) == EqualsRun(t, 2, "A");
    var u := "=AB";
    assert |u| == 3 && u[0] == '=' && u[1] == 'A' && u[2] == 'B';
    assert SkipBlanks(u, 0) == 0;
    assert EqualsRun(u, 3, "AB") == None;
    assert EqualsRun(u, 2, "A") == EqualsRun(u, 3, "A" + ['B']);
    assert EqualsRun(u, 1, []) == EqualsRun(u, 2, [] + ['A']);
  }

  /** A tie with no item before it is dropped, and the next character is read. */
  lemma LeadingTieIgnored(s: string, pos: nat)
    requires pos < |s| && (s[pos] == '&' || s[pos] == '^')
    ensures PlayScan(s, pos, []) == PlayScan(s, pos + 1, [])
  {
  }

  /** A tie flags the item just before it and no other. */
  lemma TieFlagsPrevious(s: string, pos: nat, acc: seq<PlayItem>)
    requires pos < |s| && (s[pos] == '&' || s[pos] == '^') && acc != []
    ensures PlayScan(s, pos, acc) == PlayScan(s, pos + 1, acc[..|acc| - 1] + [acc[|acc| - 1].(tied := true)])
  {
    assert TieLast(acc) == acc[..|acc| - 1] + [acc[|acc| - 1].(tied := true)];
  }

  /** A character outside the accepted set fails the whole text. */
  lemma IllegalCharacterFails(s: string, pos: nat, acc: seq<PlayItem>)
    requires pos < |s| && s[pos] != NUL
    requires var c := ToUpper(s[pos]); !IsBlank(c) && c != '&' && c != '^' && !IsPlayLetter(c)
    ensures PlayScan(s, pos, acc) == None
  {
  }

  /** `@V` and `@W` are two-letter subcommands (in either case); after any
      other character a plain `@` takes its parameter from that character on. */
  lemma AtSubcommands(s: string, p: nat)
    requires p <= |s|
    ensures var c2 := ToUpper(At(s, p));
            var r := ItemAfter(s, p, '@');
            r.Some? ==> r.value.0.subcommand == (if c2 == 'V' || c2 == 'W' then ['@', c2] else "@")
    ensures !(ToUpper(At(s, p)) in "VW") ==> ItemAfter(s, p, '@') == WithParam(Cleared("@"), PlayParam(s, p))
  {
  }

  /** The items that are not braces, with their tuplet marks dropped. */
  function Bare(items: seq<PlayItem>): seq<string>
  {
    if items == [] then []
    else (if items[0].subcommand == "{" || items[0].subcommand == "}" then [] else [items[0].subcommand])
         + Bare(items[1..])
  }

  lemma {:induction false} BareAppend(a: seq<PlayItem>, b: seq<PlayItem>)
    ensures Bare(a + b) == Bare(a) + Bare(b)
  {
    if a == [] {
      assert a + b == b;
    } else {
      assert (a + b)[0] == a[0];
      assert (a + b)[1..] == a[1..] + b;
      BareAppend(a[1..], b);
    }
  }

  lemma {:induction false} BareMarked(a: seq<PlayItem>, b: seq<PlayItem>)
    requires |a| == |b| && forall j :: 0 <= j < |a| ==> a[j].subcommand == b[j].subcommand
    ensures Bare(a) == Bare(b)
  {
    if a != [] {
      BareMarked(a[1..], b[1..]);
    }
  }

  lemma DropBrace(x: seq<PlayItem>, br: PlayItem, y: seq<PlayItem>)
    requires br.subcommand == "{" || br.subcommand == "}"
    ensures Bare(x + [br] + y) == Bare(x + y)
  {
    assert Bare([br]) == [] by {
      assert Bare([br]) == [] + Bare([br][1..]) && [br][1..] == [];
    }
    assert x + [br] + y == x + ([br] + y);
    BareAppend(x, [br] + y);
    BareAppend([br], y);
    BareAppend(x, y);
  }

  lemma SplitGroup(items: seq<PlayItem>, k: nat, i: nat)
    requires k < i < |items|
    ensures items == items[..k] + [items[k]] + (items[k + 1..i] + [items[i]] + items[i + 1..])
  {
    assert items[i..] == [items[i]] + items[i + 1..];
    assert items[k + 1..] == items[k + 1..i] + items[i..];
    assert items[k..] == [items[k]] + items[k + 1..];
    assert items == items[..k] + items[k..];
  }

  lemma UnbraceKeepsOthers(items: seq<PlayItem>, k: nat, i: nat)
    requires k < i < |items|
    requires items[k].subcommand == "{" && items[i].subcommand == "}"
    ensures Bare(items[..k] + items[k + 1..i] + items[i + 1..]) == Bare(items)
  {
    var a, b, c := items[..k], items[k + 1..i], items[i + 1..];
    SplitGroup(items, k, i);
    DropBrace(a, items[k], b + [items[i]] + c);
    assert a + (b + [items[i]] + c) == (a + b) + [items[i]] + c;
    DropBrace(a + b, items[i], c);
  }

  lemma SameBareMiddle(a: seq<PlayItem>, b: seq<PlayItem>, b': seq<PlayItem>, c: seq<PlayItem>)
    requires Bare(b) == Bare(b')
    ensures Bare(a + b + c) == Bare(a + b' + c)
  {
    BareAppend(a, b);
    BareAppend(a + b, c);
    BareAppend(a, b');
    BareAppend(a + b', c);
  }

  /** A group rewrite only removes its two braces and retags the interior. */
  lemma MarkKeepsOthers(items: seq<PlayItem>, k: nat, i: nat)
    requires k < i < |items|
    requires items[k].subcommand == "{" && items[i].subcommand == "}"
    ensures Bare(Mark(items, k, i)) == Bare(items)
  {
    var marked := Retagged(items, k, i);
    UnbraceKeepsOthers(items, k, i);
    BareMarked(marked, items[k + 1..i]);
    SameBareMiddle(items[..k], marked, items[k + 1..i], items[i + 1..]);
  }

  /** The tuplet pass keeps every other item, in order, and only removes
      braces, two at a time. */
  lemma {:induction false} TupletScanKeepsOthers(items: seq<PlayItem>, i: nat, k: int, level: int)
    requires i <= |items| + 1 && -1 <= k
    requires level > 0 ==> 0 <= k < i && k < |items| && items[k].subcommand == "{"
    ensures Bare(TupletScan(items, i, k, level)) == Bare(items)
    decreases |items| + 2 - i
  {
    if i < |items| {
      var sub := items[i].subcommand;
      var k' := if sub == "{" then i else k;
      var level' := if sub == "{" then level + 1 else level;
      if sub == "}" {
        if level' - 1 == 0 {
          MarkKeepsOthers(items, k', i);
          TupletScanKeepsOthers(Mark(items, k', i), i, k', 0);
        } else {
          TupletScanKeepsOthers(items, i + 1, k', level' - 1);
        }
      } else {
        TupletScanKeepsOthers(items, i + 1, k', level');
      }
    }
  }

  /** Items are only ever removed in pairs. */
  lemma {:induction false} TupletScanRemovesPairs(items: seq<PlayItem>, i: nat, k: int, level: int)
    requires i <= |items| + 1 && -1 <= k
    requires level > 0 ==> 0 <= k < i && k < |items| && items[k].subcommand == "{"
    ensures |TupletScan(items, i, k, level)| <= |items|
    ensures (|items| - |TupletScan(items, i, k, level)|) % 2 == 0
    decreases |items| + 2 - i
  {
    if i < |items| {
      var sub := items[i].subcommand;
      var k' := if sub == "{" then i else k;
      var level' := if sub == "{" then level + 1 else level;
      if sub == "}" {
        if level' - 1 == 0 {
          TupletScanRemovesPairs(Mark(items, k', i), i, k', 0);
        } else {
          TupletScanRemovesPairs(items, i + 1, k', level' - 1);
        }
      } else {
        TupletScanRemovesPairs(items, i + 1, k', level');
      }
    }
  }

  /** vsk_rescan_play_items keeps every non-brace item in order and
      removes braces only in matched pairs. */
  lemma RescanKeepsOthers(items: seq<PlayItem>)
    ensures Bare(RescanPlay(items)) == Bare(items)
    ensures |RescanPlay(items)| <= |items| && (|items| - |RescanPlay(items)|) % 2 == 0
  {
    TupletScanKeepsOthers(items, 0, -1, 0);
    TupletScanRemovesPairs(items, 0, -1, 0);
  }

  lemma {:induction false} TupletScanWithoutOpen(items: seq<PlayItem>, i: nat, k: int, level: int)
    requires i <= |items| + 1 && -1 <= k && level <= 0
    requires forall j :: 0 <= j < |items| ==> items[j].subcommand != "{"
    ensures TupletScan(items, i, k, level) == items
    decreases |items| + 2 - i
  {
    if i < |items| {
      var sub := items[i].subcommand;
      if sub == "}" {
        TupletScanWithoutOpen(items, i + 1, k, level - 1);
      } else {
        TupletScanWithoutOpen(items, i + 1, k, level);
      }
    }
  }

  /** With no `{` the tuplet pass changes nothing. */
  lemma RescanWithoutOpen(items: seq<PlayItem>)
    requires forall j :: 0 <= j < |items| ==> items[j].subcommand != "{"
    ensures RescanPlay(items) == items
  {
    TupletScanWithoutOpen(items, 0, -1, 0);
  }

  /** `{C D E}n` gives three notes marked as a triplet whose length is
      `atoi` of the closing parameter. */
  lemma {:induction false} TripletMarked(c: PlayItem, d: PlayItem, e: PlayItem, close: PlayItem)
    requires c.subcommand == "C" && d.subcommand == "D" && e.subcommand == "E"
    requires close.subcommand == "}"
    ensures RescanPlay([Cleared("{"), c, d, e, close])
         == [c.(pletCount := 3, pletL := Atoi(close.param)), d.(pletCount := 3, pletL := Atoi(close.param)),
             e.(pletCount := 3, pletL := Atoi(close.param))]
  {
    var items := [Cleared("{"), c, d, e, close];
    var m := Mark(items, 0, 4);
    TripletMark(c, d, e, close);
    assert items[0].subcommand == "{" && items[1].subcommand == "C" && items[2].subcommand == "D"
        && items[3].subcommand == "E" && items[4].subcommand == "}";
    assert "C" != "{" && "C" != "}" && "D" != "{" && "D" != "}" && "E" != "{" && "E" != "}";
    calc {
      TupletScan(items, 0, -1, 0);
      TupletScan(items, 1, 0, 1);
      TupletScan(items, 2, 0, 1);
      TupletScan(items, 3, 0, 1);
      TupletScan(items, 4, 0, 1);
      TupletScan(m, 4, 0, 0);
      m;
    }
  }

  lemma TripletMark(c: PlayItem, d: PlayItem, e: PlayItem, close: PlayItem)
    ensures Mark([Cleared("{"), c, d, e, close], 0, 4)
         == [c.(pletCount := 3, pletL := Atoi(close.param)), d.(pletCount := 3, pletL := Atoi(close.param)),
             e.(pletCount := 3, pletL := Atoi(close.param))]
  {
    var m := Mark([Cleared("{"), c, d, e, close], 0, 4);
    assert |m| == 3;
  }

  /** After a group the item that followed its `}` is skipped: in
      `{C}n{D}n` that is the second `{`, so the second group is never
      matched and keeps its braces. */
  lemma {:induction false} SecondGroupSkipped(c: PlayItem, d: PlayItem, close: PlayItem)
    requires c.subcommand == "C" && d.subcommand == "D" && close.subcommand == "}"
    ensures RescanPlay([Cleared("{"), c, close, Cleared("{"), d, close])
         == [c.(pletCount := 1, pletL := Atoi(close.param)), Cleared("{"), d, close]
  {
    var items := [Cleared("{"), c, close, Cleared("{"), d, close];
    var m := Mark(items, 0, 2);
    SingletMark(c, d, close);
    assert items[0].subcommand == "{" && items[1].subcommand == "C" && items[2].subcommand == "}";
    assert |m| == 4 && m[2].subcommand == "D" && m[3].subcommand == "}";
    assert "C" != "{" && "C" != "}" && "D" != "{" && "D" != "}";
    calc {
      TupletScan(items, 0, -1, 0);
      TupletScan(items, 1, 0, 1);
      TupletScan(items, 2, 0, 1);
      TupletScan(m, 2, 0, 0);
      TupletScan(m, 3, 0, 0);
      TupletScan(m, 4, 0, -1);
      m;
    }
  }

  lemma SingletMark(c: PlayItem, d: PlayItem, close: PlayItem)
    ensures Mark([Cleared("{"), c, close, Cleared("{"), d, close], 0, 2)
         == [c.(pletCount := 1, pletL := Atoi(close.param)), Cleared("{"), d, close]
  {
    var items := [Cleared("{"), c, close, Cleared("{"), d, close];
    var r := Retagged(items, 0, 2);
    assert |r| == 1 && r[0] == c.(pletCount := 1, pletL := Atoi(close.param));
    assert items[..0] == [] && items[3..] == [Cleared("{"), d, close];
    assert [] + r + items[3..] == [r[0]] + items[3..];
  }
}
