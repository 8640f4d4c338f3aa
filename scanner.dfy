/** scanner.h: VskScanner, a cursor over a string. */
module Scanning {
  import opened Base

  class Scanner {
    /** m_str: the text, fixed at construction. */
    const str: string
    /** m_i: the cursor. */
    var i: nat

    /** The cursor stays within the text (or just past its end). */
    ghost predicate Valid()
      reads this
    {
      i <= |str|
    }

    constructor (s: string, start: nat := 0)
      ensures str == s && i == start
      ensures start <= |s| ==> Valid()
    {
      str := s;
      i := start;
    }

    /** eof(): the cursor is at or past the end of the text. */
    predicate Eof()
      reads this
    {
      i >= |str|
    }

    /** peek(): the character under the cursor, 0 at the end; reading never
        moves the cursor (a function cannot change the object). */
    function Peek(): (c: char)
      reads this
    {
      if !Eof() then str[i] else NUL
    }

    /** getch(): returns what peek would return; advances by exactly one
        unless at the end, where the cursor stays put. */
    method Getch() returns (c: char)
      modifies this
      ensures c == old(Peek())
      ensures i == if old(Eof()) then old(i) else old(i) + 1
      ensures old(Valid()) ==> Valid()
    {
      if !Eof() {
        c := str[i];
        i := i + 1;
        return;
      }
      c := NUL;
    }

    /** ungetch(): steps back one position, but never below 0. */
    method Ungetch()
      modifies this
      ensures i == if old(i) > 0 then old(i) - 1 else 0
      ensures old(Valid()) ==> Valid()
    {
      if i > 0 {
        i := i - 1;
      }
    }
  }

  /** A getch that was not at the end, followed by an ungetch, puts the cursor
      back where it was and loses nothing. */
  method GetchThenUngetch(sc: Scanner) returns (c: char)
    modifies sc
    ensures c == old(sc.Peek())
    ensures !old(sc.Eof()) ==> sc.i == old(sc.i)
    ensures old(sc.Eof()) && old(sc.i) > 0 ==> sc.i == old(sc.i) - 1
  {
    c := sc.Getch();
    sc.Ungetch();
  }
}
