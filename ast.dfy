/** ast.h: a parameter text is evaluated once, with std::atoi, into an AST
    node that only remembers the resulting integer. */
module Ast {
  import opened Base

  /** isspace in the "C" locale: what std::atoi skips first. */
  predicate IsSpace(c: char)
  {
    c == ' ' || c == '\t' || c == '\n' || c == '\U{0B}' || c == '\U{0C}' || c == '\r'
  }

  predicate AllDigits(s: string)
  {
    forall j :: 0 <= j < |s| ==> IsDigit(s[j])
  }

  /** The longest prefix of s made of decimal digits. */
  function LeadingDigits(s: string): (d: string)
    ensures AllDigits(d) && d <= s
    ensures |d| < |s| ==> !IsDigit(s[|d|])
  {
    if s != [] && IsDigit(s[0]) then [s[0]] + LeadingDigits(s[1..]) else []
  }

  /** Decimal value of a digit string, most significant digit first. */
  function DecimalValue(d: string): nat
    requires AllDigits(d)
  {
    if d == [] then 0 else 10 * DecimalValue(d[..|d| - 1]) + DigitValue(d[|d| - 1])
  }

  /** The text after its leading white space. */
  function SkipSpaces(s: string): (t: string)
    ensures |t| <= |s| && t == s[|s| - |t|..]
    ensures forall j :: 0 <= j < |s| - |t| ==> IsSpace(s[j])
    ensures t != [] ==> !IsSpace(t[0])
  {
    if s != [] && IsSpace(s[0]) then SkipSpaces(s[1..]) else s
  }

  /** std::atoi: leading white space, an optional sign, then the longest run of
      digits; anything else ends the number, and no digits at all give 0.
      (The int overflow of atoi is not modelled: the value is unbounded.) */
  function Atoi(s: string): int
  {
    var t := SkipSpaces(s);
    if t != [] && t[0] == '-' then -(DecimalValue(LeadingDigits(t[1..])) as int)
    else if t != [] && t[0] == '+' then DecimalValue(LeadingDigits(t[1..]))
    else DecimalValue(LeadingDigits(t))
  }

  /** VskAst: the node keeps the integer computed at construction. */
  datatype VskAst = VskAst(value: int)
  {
    function ToInt(): int { value }
  }

  /** vsk_eval_text: always yields a node, whose integer is atoi of the text.
      What that integer is for a given text is stated by the lemmas below
      (AtoiOfDigits, AtoiDecimalRoundTrip, AtoiNegative, AtoiStopsAtNonDigit). */
  function EvalText(s: string): (a: VskAst)
    ensures a.ToInt() == Atoi(s)
  {
    VskAst(Atoi(s))
  }

  /** The decimal spelling of a natural number (what a digit parameter holds). */
  function DecimalString(n: nat): (d: string)
    ensures d != [] && AllDigits(d)
  {
    if n < 10 then [DigitChar(n)] else DecimalString(n / 10) + [DigitChar(n % 10)]
  }

  lemma {:induction false} LeadingDigitsOfDigits(s: string)
    requires AllDigits(s)
    ensures LeadingDigits(s) == s
  {
    if s != [] {
      LeadingDigitsOfDigits(s[1..]);
    }
  }

  lemma {:induction false} LeadingDigitsStops(d: string, rest: string)
    requires AllDigits(d)
    requires rest == [] || !IsDigit(rest[0])
    ensures LeadingDigits(d + rest) == d
  {
    if d == [] {
    } else {
      assert (d + rest)[1..] == d[1..] + rest;
      LeadingDigitsStops(d[1..], rest);
    }
  }

  /** A parameter made only of digits evaluates to its decimal value. */
  lemma {:induction false} AtoiOfDigits(s: string)
    requires AllDigits(s)
    ensures EvalText(s).ToInt() == DecimalValue(s)
  {
    if s != [] {
      assert IsDigit(s[0]) && !IsSpace(s[0]);
    }
    assert SkipSpaces(s) == s;
    LeadingDigitsOfDigits(s);
  }

  /** Digits followed by anything that is not a digit: atoi stops at the first
      non-digit character. */
  lemma {:induction false} AtoiStopsAtNonDigit(d: string, rest: string)
    requires d != [] && AllDigits(d)
    requires rest == [] || !IsDigit(rest[0])
    ensures Atoi(d + rest) == DecimalValue(d)
  {
    var s := d + rest;
    assert s[0] == d[0] && IsDigit(s[0]);
    assert !IsSpace(s[0]) && s[0] != '-' && s[0] != '+';
    assert SkipSpaces(s) == s;
    LeadingDigitsStops(d, rest);
  }

  /** A parameter starting with `(`, as SING's `(2)`, evaluates to 0. */
  lemma AtoiOfParenthesised(s: string)
    requires s != [] && s[0] == '('
    ensures EvalText(s).ToInt() == 0
  {
  }

  lemma {:induction false} DecimalValueOfString(n: nat)
    ensures DecimalValue(DecimalString(n)) == n
  {
    if n >= 10 {
      var d := DecimalString(n / 10) + [DigitChar(n % 10)];
      assert d[..|d| - 1] == DecimalString(n / 10);
      DecimalValueOfString(n / 10);
    }
  }

  /** Round trip: atoi reads back every natural number written in decimal. */
  lemma {:induction false} AtoiDecimalRoundTrip(n: nat)
    ensures Atoi(DecimalString(n)) == n
  {
    var d := DecimalString(n);
    assert IsDigit(d[0]) && !IsSpace(d[0]) && d[0] != '-' && d[0] != '+';
    assert SkipSpaces(d) == d;
    LeadingDigitsOfDigits(d);
    DecimalValueOfString(n);
  }

  /** A leading minus sign negates the value. */
  lemma {:induction false} AtoiNegative(n: nat)
    ensures Atoi("-" + DecimalString(n)) == -(n as int)
  {
    var d := DecimalString(n);
    var s := "-" + d;
    assert s[0] == '-' && !IsSpace(s[0]);
    assert SkipSpaces(s) == s;
    assert s[1..] == d;
    LeadingDigitsOfDigits(d);
    DecimalValueOfString(n);
  }
}
