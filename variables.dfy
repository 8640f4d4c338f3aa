/** main.cpp: vsk_replace_placeholders ({name}) and vsk_replace_placeholders2
    ([name]), which expand string variables recursively and refuse cycles.
    The two source functions are one algorithm; `Delims` says which copy. */
module Variables {
  import opened Base

  datatype Delims = Braces | Brackets
  {
    function Open(): char { if Braces? then '{' else '[' }
    function Close(): char { if Braces? then '}' else ']' }
    /** The `[]` copy upper-cases the key (CharUpperA) before using it. */
    function Key(raw: string): string { if Braces? then raw else UpperString(raw) }
  }

  /** The expansion of a text, or the "circular reference detected" failure
      (an exception in the source, so no text comes back with it). */
  datatype Expansion = Done(text: string) | Circular

  /** Puts a prefix in front of a successful expansion. */
  function Prepend(p: string, e: Expansion): Expansion
  {
    match e
    case Done(t) => Done(p + t)
    case Circular => Circular
  }

  lemma PrependPrepend(p: string, q: string, e: Expansion)
    ensures Prepend(p, Prepend(q, e)) == Prepend(p + q, e)
  {
    if e.Done? {
      assert p + (q + e.text) == (p + q) + e.text;
    }
  }

  /** std::string::find of one character, starting at `from`. */
  function Find(s: string, c: char, from: nat): (r: Option<nat>)
    ensures r.Some? ==> from <= r.value < |s| && s[r.value] == c
    decreases |s| - from
  {
    if from >= |s| then None else if s[from] == c then Some(from) else Find(s, c, from + 1)
  }

  lemma {:induction false} FindShift(s: string, c: char, off: nat, from: nat)
    requires off <= from
    requires off <= |s|
    ensures Find(s, c, from) == match Find(s[off..], c, from - off)
                                 case None => None
                                 case Some(j) => Some(j + off)
    decreases |s| - from
  {
    if from < |s| && s[from] != c {
      FindShift(s, c, off, from + 1);
    }
  }

  lemma FewerUnvisited(keys: set<string>, visited: set<string>, key: string)
    requires key in keys && key !in visited
    ensures |keys - (visited + {key})| < |keys - visited|
  {
    assert keys - (visited + {key}) == (keys - visited) - {key};
  }

  /** The expansion of `rest`, the part of the text the loop has not passed yet:
      the first open delimiter with a later close delimiter marks a key; a key
      already being expanded fails; a defined key is replaced by its value,
      expanded with the key marked as visited; an undefined one by nothing;
      the search then resumes after the replacement. Recursion happens only
      for a table key not yet visited, so the depth is bounded by the size of
      the table (the first component of the measure). */
  function ExpandFrom(d: Delims, vars: map<string, string>, visited: set<string>, rest: string): Expansion
    decreases |vars.Keys - visited|, |rest|
  {
    match Find(rest, d.Open(), 0)
    case None => Done(rest)
    case Some(a) =>
      match Find(rest, d.Close(), a)
      case None => Done(rest)
      case Some(b) =>
        var key := d.Key(rest[a + 1..b]);
        if key in visited then Circular
        else
          match ValueOf(d, vars, visited, key)
          case Circular => Circular
          case Done(v) => Prepend(rest[..a] + v, ExpandFrom(d, vars, visited, rest[b + 1..]))
  }

  /** The replacement of a key not yet being expanded: its value, itself
      expanded with the key marked as visited, or nothing for an undefined key. */
  function ValueOf(d: Delims, vars: map<string, string>, visited: set<string>, key: string): Expansion
    requires key !in visited
    decreases |vars.Keys - visited|, 0
  {
    if key in vars then
      FewerUnvisited(vars.Keys, visited, key);
      ExpandFrom(d, vars, visited + {key}, vars[key])
    else Done("")
  }

  /** What the loop sees in result[startPos..] when it finds an open delimiter
      at `a` but no close delimiter after it: the rest stays as it is. */
  lemma FoundOpenOnly(d: Delims, vars: map<string, string>, visited: set<string>,
                      s: string, sp: nat, a: nat)
    requires sp <= |s|
    requires Find(s, d.Open(), sp) == Some(a)
    requires Find(s, d.Close(), a) == None
    ensures ExpandFrom(d, vars, visited, s[sp..]) == Done(s[sp..])
  {
    FindShift(s, d.Open(), sp, sp);
    FindShift(s, d.Close(), sp, a);
  }

  /** One unfolding of ExpandFrom at a key found between `a` and `b`. */
  lemma {:induction false} FoundKeyAtStart(d: Delims, vars: map<string, string>, visited: set<string>,
                        r: string, a: nat, b: nat, key: string)
    requires Find(r, d.Open(), 0) == Some(a)
    requires Find(r, d.Close(), a) == Some(b)
    requires key == d.Key(r[a + 1..b])
    ensures key in visited ==> ExpandFrom(d, vars, visited, r) == Circular
    ensures key !in visited ==>
      ExpandFrom(d, vars, visited, r)
      == match ValueOf(d, vars, visited, key)
         case Circular => Circular
         case Done(v) => Prepend(r[..a] + v, ExpandFrom(d, vars, visited, r[b + 1..]))
  {
  }

  /** The same, with the text before the key and the text after it named. */
  lemma {:induction false} FoundKeyParts(d: Delims, vars: map<string, string>, visited: set<string>,
                        r: string, a: nat, b: nat, key: string, before: string, after: string)
    requires Find(r, d.Open(), 0) == Some(a)
    requires Find(r, d.Close(), a) == Some(b)
    requires key == d.Key(r[a + 1..b]) && before == r[..a] && after == r[b + 1..]
    ensures key in visited ==> ExpandFrom(d, vars, visited, r) == Circular
    ensures key !in visited ==>
      ExpandFrom(d, vars, visited, r)
      == match ValueOf(d, vars, visited, key)
         case Circular => Circular
         case Done(v) => Prepend(before + v, ExpandFrom(d, vars, visited, after))
  {
    FoundKeyAtStart(d, vars, visited, r, a, b, key);
  }

  /** What the loop sees in result[startPos..] when it finds a key between
      `a` and `b`. */
  lemma {:induction false} FoundKey(d: Delims, vars: map<string, string>, visited: set<string>,
                 s: string, sp: nat, a: nat, b: nat, key: string)
    requires sp <= |s|
    requires Find(s, d.Open(), sp) == Some(a)
    requires Find(s, d.Close(), a) == Some(b)
    requires key == d.Key(s[a + 1..b])
    ensures key in visited ==> ExpandFrom(d, vars, visited, s[sp..]) == Circular
    ensures key !in visited ==>
      ExpandFrom(d, vars, visited, s[sp..])
      == match ValueOf(d, vars, visited, key)
         case Circular => Circular
         case Done(v) => Prepend(s[sp..a] + v, ExpandFrom(d, vars, visited, s[b + 1..]))
  {
    var rest := s[sp..];
    FindShift(s, d.Open(), sp, sp);
    FindShift(s, d.Close(), sp, a);
    assert Find(rest, d.Open(), 0) == Some(a - sp);
    assert Find(rest, d.Close(), a - sp) == Some(b - sp);
    assert rest[a - sp + 1..b - sp] == s[a + 1..b];
    assert rest[b - sp + 1..] == s[b + 1..];
    assert rest[..a - sp] == s[sp..a];
    FoundKeyParts(d, vars, visited, rest, a - sp, b - sp, key, s[sp..a], s[b + 1..]);
  }

  /** Replacing the span a..b by `v` and moving past `v` keeps the loop
      invariant. */
  lemma Substitute(d: Delims, vars: map<string, string>, visited: set<string>,
                   s: string, sp: nat, a: nat, b: nat, v: string)
    requires sp <= a < b < |s|
    ensures var next := s[..a] + v + s[b + 1..];
      Prepend(s[..sp], Prepend(s[sp..a] + v, ExpandFrom(d, vars, visited, s[b + 1..])))
      == Prepend(next[..a + |v|], ExpandFrom(d, vars, visited, next[a + |v|..]))
  {
    var next := s[..a] + v + s[b + 1..];
    PrependPrepend(s[..sp], s[sp..a] + v, ExpandFrom(d, vars, visited, s[b + 1..]));
    assert s[..sp] + (s[sp..a] + v) == s[..a] + v;
    assert next[..a + |v|] == s[..a] + v;
    assert next[a + |v|..] == s[b + 1..];
  }

  /** vsk_replace_placeholders(str, visited) and its `[]` twin: the in-place
      rewriting loop of the source, proved to compute ExpandFrom. */
  method ReplacePlaceholders(d: Delims, vars: map<string, string>, visited: set<string>, str: string)
    returns (r: Expansion)
    ensures r == ExpandFrom(d, vars, visited, str)
    decreases |vars.Keys - visited|, 1
  {
    var result := str;
    var startPos: nat := 0;
    while true
      invariant startPos <= |result|
      invariant ExpandFrom(d, vars, visited, str)
             == Prepend(result[..startPos], ExpandFrom(d, vars, visited, result[startPos..]))
      decreases |result| - startPos
    {
      var found := Find(result, d.Open(), startPos);
      if found.None? {
        FindShift(result, d.Open(), startPos, startPos);
        break;
      }
      var a := found.value;
      var closing := Find(result, d.Close(), a);
      if closing.None? {
        FoundOpenOnly(d, vars, visited, result, startPos, a);
        break;
      }
      var b := closing.value;
      var key := d.Key(result[a + 1..b]);
      var circular;
      circular, result, startPos := ReplaceKey(d, vars, visited, str, result, startPos, a, b, key);
      if circular {
        return Circular;
      }
    }
    assert result[..startPos] + result[startPos..] == result;
    return Done(result);
  }

  /** The loop body of vsk_replace_placeholders once a key is found between
      `a` and `b`: a key already being expanded, or a failure inside its
      value, is a circular reference; otherwise the key is marked as
      visited while its value is expanded, the span is replaced by the value
      and the scan resumes after it. */
  method ReplaceKey(d: Delims, vars: map<string, string>, visited: set<string>, ghost str: string,
                    result: string, startPos: nat, a: nat, b: nat, key: string)
    returns (circular: bool, next: string, nextPos: nat)
    requires startPos <= |result|
    requires Find(result, d.Open(), startPos) == Some(a) && Find(result, d.Close(), a) == Some(b)
    requires key == d.Key(result[a + 1..b])
    requires ExpandFrom(d, vars, visited, str)
          == Prepend(result[..startPos], ExpandFrom(d, vars, visited, result[startPos..]))
    ensures circular ==> ExpandFrom(d, vars, visited, str) == Circular
    ensures !circular ==>
              nextPos <= |next| && |next| - nextPos < |result| - startPos
              && ExpandFrom(d, vars, visited, str) == Prepend(next[..nextPos], ExpandFrom(d, vars, visited, next[nextPos..]))
    decreases |vars.Keys - visited|, 0
  {
    FoundKey(d, vars, visited, result, startPos, a, b, key);
    if key in visited {
      return true, result, startPos;
    }
    var v := "";
    if key in vars {
      FewerUnvisited(vars.Keys, visited, key);
      var value := ReplacePlaceholders(d, vars, visited + {key}, vars[key]);
      if value.Circular? {
        return true, result, startPos;
      }
      v := value.text;
    }
    assert ValueOf(d, vars, visited, key) == Done(v);
    Substitute(d, vars, visited, result, startPos, a, b, v);
    circular, next, nextPos := false, result[..a] + v + result[b + 1..], a + |v|;
  }

  /** The one-argument overloads: expansion starts with nothing visited. */
  method ReplaceTop(d: Delims, vars: map<string, string>, str: string) returns (r: Expansion)
    ensures r == ExpandFrom(d, vars, {}, str)
  {
    r := ReplacePlaceholders(d, vars, {}, str);
  }

  lemma {:induction false} FindNone(s: string, c: char, from: nat)
    requires forall j :: from <= j < |s| ==> s[j] != c
    ensures Find(s, c, from) == None
    decreases |s| - from
  {
    if from < |s| {
      FindNone(s, c, from + 1);
    }
  }

  lemma {:induction false} FindFirst(s: string, c: char, from: nat, k: nat)
    requires from <= k < |s| && s[k] == c
    requires forall j :: from <= j < k ==> s[j] != c
    ensures Find(s, c, from) == Some(k)
    decreases k - from
  {
    if from < k {
      FindFirst(s, c, from + 1, k);
    }
  }

  /** A text without an open delimiter comes back unchanged. */
  lemma NoPlaceholderUnchanged(d: Delims, vars: map<string, string>, visited: set<string>, s: string)
    requires forall j :: 0 <= j < |s| ==> s[j] != d.Open()
    ensures ExpandFrom(d, vars, visited, s) == Done(s)
  {
    FindNone(s, d.Open(), 0);
  }

  /** An open delimiter never closed after it: the text comes back unchanged. */
  lemma UnmatchedUnchanged(d: Delims, vars: map<string, string>, visited: set<string>,
                              p: string, q: string)
    requires forall j :: 0 <= j < |p| ==> p[j] != d.Open()
    requires forall j :: 0 <= j < |q| ==> q[j] != d.Close()
    ensures ExpandFrom(d, vars, visited, p + [d.Open()] + q) == Done(p + [d.Open()] + q)
  {
    var s := p + [d.Open()] + q;
    FindFirst(s, d.Open(), 0, |p|);
    assert d.Open() != d.Close();
    FindNone(s, d.Close(), |p|);
  }

  /** The first placeholder `p {k} q` of a text: its span is replaced by the
      key's expanded value (nothing for an undefined key), the text before it
      is kept, and the scan goes on in the text after it. A key already being
      expanded is a circular reference, and so is any failure inside the value. */
  lemma FirstPlaceholder(d: Delims, vars: map<string, string>, visited: set<string>,
                         p: string, k: string, q: string)
    requires forall j :: 0 <= j < |p| ==> p[j] != d.Open()
    requires forall j :: 0 <= j < |k| ==> k[j] != d.Close()
    ensures var s := p + [d.Open()] + k + [d.Close()] + q;
            var key := d.Key(k);
            ExpandFrom(d, vars, visited, s)
            == if key in visited then Circular
               else if key !in vars then Prepend(p, ExpandFrom(d, vars, visited, q))
               else match ExpandFrom(d, vars, visited + {key}, vars[key])
                    case Circular => Circular
                    case Done(v) => Prepend(p + v, ExpandFrom(d, vars, visited, q))
  {
    var s := p + [d.Open()] + k + [d.Close()] + q;
    var a := |p|;
    var b := |p| + 1 + |k|;
    FindFirst(s, d.Open(), 0, a);
    assert d.Open() != d.Close();
    FindFirst(s, d.Close(), a, b);
    assert s[a + 1..b] == k;
    assert s[..a] == p;
    assert s[b + 1..] == q;
    assert p + "" == p;
    FoundKeyAtStart(d, vars, visited, s, a, b, d.Key(k));
  }

  /** A defined variable whose value holds no placeholder is substituted
      literally: `p {k} q` becomes p, the value, then the expansion of q. */
  lemma LiteralValue(d: Delims, vars: map<string, string>, p: string, k: string, q: string)
    requires forall j :: 0 <= j < |p| ==> p[j] != d.Open()
    requires forall j :: 0 <= j < |k| ==> k[j] != d.Close()
    requires d.Key(k) in vars
    requires forall j :: 0 <= j < |vars[d.Key(k)]| ==> vars[d.Key(k)][j] != d.Open()
    ensures ExpandFrom(d, vars, {}, p + [d.Open()] + k + [d.Close()] + q)
         == Prepend(p + vars[d.Key(k)], ExpandFrom(d, vars, {}, q))
  {
    FirstPlaceholder(d, vars, {}, p, k, q);
    NoPlaceholderUnchanged(d, vars, {d.Key(k)}, vars[d.Key(k)]);
  }

  /** A variable whose value names itself is a circular reference. */
  lemma SelfReference(d: Delims, vars: map<string, string>, k: string)
    requires forall j :: 0 <= j < |k| ==> k[j] != d.Close() && k[j] != d.Open()
    requires d.Key(k) in vars && vars[d.Key(k)] == [d.Open()] + k + [d.Close()]
    ensures ExpandFrom(d, vars, {}, [d.Open()] + k + [d.Close()]) == Circular
  {
    var key := d.Key(k);
    var t := [d.Open()] + k + [d.Close()];
    FirstPlaceholder(d, vars, {}, "", k, "");
    assert "" + [d.Open()] + k + [d.Close()] + "" == t;
    FirstPlaceholder(d, vars, {key}, "", k, "");
  }

  /** Two variables naming each other: a cycle is refused. */
  lemma MutualReference()
    ensures ExpandFrom(Braces, map["A" := "{B}", "B" := "{A}"], {}, "{A}") == Circular
  {
    var vars := map["A" := "{B}", "B" := "{A}"];
    assert "" + "{" + "A" + "}" + "" == "{A}";
    assert "" + "{" + "B" + "}" + "" == "{B}";
    FirstPlaceholder(Braces, vars, {"A", "B"}, "", "A", "");
    assert ExpandFrom(Braces, vars, {"A", "B"}, "{A}") == Circular;
    FirstPlaceholder(Braces, vars, {"A"}, "", "B", "");
    assert {"A"} + {"B"} == {"A", "B"};
    assert ExpandFrom(Braces, vars, {"A"}, "{B}") == Circular;
    FirstPlaceholder(Braces, vars, {}, "", "A", "");
    assert {} + {"A"} == {"A"};
  }

  /** The same variable used twice side by side is not a cycle: the key is
      released once its placeholder is replaced. */
  lemma SideBySide()
    ensures ExpandFrom(Braces, map["A" := "X"], {}, "{A}{A}") == Done("XX")
  {
    var vars := map["A" := "X"];
    var e := "" + [Braces.Open()] + "A" + [Braces.Close()];
    assert e == "{A}";
    FirstPlaceholder(Braces, vars, {}, "", "A", "{A}");
    assert e + "{A}" == "{A}{A}";
    LiteralValue(Braces, vars, "", "A", "");
    assert e + "" == "{A}";
    NoPlaceholderUnchanged(Braces, vars, {}, "");
    NoPlaceholderUnchanged(Braces, vars, {"A"}, "X");
  }

  /** The search resumes after the inserted value: a value that opens a
      placeholder does not combine with the text after it. */
  lemma NoRescan()
    ensures ExpandFrom(Braces, map["A" := "{", "B" := "X"], {}, "{A}B}") == Done("{B}")
  {
    var vars := map["A" := "{", "B" := "X"];
    FirstPlaceholder(Braces, vars, {}, "", "A", "B}");
    assert "" + "{" + "A" + "}" + "B}" == "{A}B}";
    UnmatchedUnchanged(Braces, vars, {"A"}, "", "");
    assert "" + "{" + "" == "{";
    NoPlaceholderUnchanged(Braces, vars, {}, "B}");
  }

  /** The bracket form upper-cases the name before looking it up. */
  lemma BracketKeyUpperCased()
    ensures ExpandFrom(Brackets, map["AB" := "CDE"], {}, "[ab]") == Done("CDE")
  {
    var vars := map["AB" := "CDE"];
    assert Brackets.Key("ab") == "AB";
    LiteralValue(Brackets, vars, "", "ab", "");
    assert "" + "[" + "ab" + "]" + "" == "[ab]";
    NoPlaceholderUnchanged(Brackets, vars, {}, "");
  }
}
