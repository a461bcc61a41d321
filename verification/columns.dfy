/** Spreadsheet column letters (`getColumnLetter`): the bijective base-26
    numeral with digits 'A'..'Z' standing for 1..26, so 1 is "A", 26 is "Z"
    and 27 is "AA". Column numbers below 1 encode as the empty string. */
module Columns {

  predicate IsLetter(ch: char) { 'A' <= ch <= 'Z' }

  predicate IsLetters(s: string) { forall i :: 0 <= i < |s| ==> IsLetter(s[i]) }

  /** The letter for digit value k (0 is 'A'). */
  function Letter(k: int): (ch: char)
    requires 0 <= k < 26
    ensures IsLetter(ch)
  {
    ('A' as int + k) as char
  }

  /** Reference encoding; mirrors the source loop, which peels the last
      letter off `col - 1` and continues with `(col - 1) / 26`. */
  function ColumnLetter(col: int): (s: string)
    ensures col <= 0 <==> s == ""
    ensures IsLetters(s)
    decreases col
  {
    if col <= 0 then ""
    else ColumnLetter((col - 1) / 26) + [Letter((col - 1) % 26)]
  }

  /** The inverse reading: a letter string as a column number. */
  function ColumnNumber(s: string): (n: nat)
    requires IsLetters(s)
    ensures s == [] <==> n == 0
  {
    if s == [] then 0
    else ColumnNumber(s[..|s| - 1]) * 26 + (s[|s| - 1] as int - 'A' as int + 1)
  }

  /** The source's loop, as written. */
  method GetColumnLetter(col: int) returns (result: string)
    ensures result == ColumnLetter(col)
    ensures col >= 1 ==> result != "" && IsLetters(result) && ColumnNumber(result) == col
    ensures col <= 0 ==> result == ""
  {
    result := "";
    var c := col;
    while c > 0
      invariant ColumnLetter(c) + result == ColumnLetter(col)
      decreases c
    {
      c := c - 1;
      result := [Letter(c % 26)] + result;
      c := c / 26;
    }
    assert c <= 0;
    if col >= 1 {
      DecodeEncode(col);
    }
  }

  /** Decoding undoes encoding for every column number from 0 up. */
  lemma {:induction false} DecodeEncode(col: int)
    requires col >= 0
    ensures ColumnNumber(ColumnLetter(col)) == col
    decreases col
  {
    if col > 0 {
      var q, r := (col - 1) / 26, (col - 1) % 26;
      var p := ColumnLetter(q);
      DecodeEncode(q);
      var s := p + [Letter(r)];
      assert s == ColumnLetter(col);
      assert s[..|s| - 1] == p;
    }
  }

  /** Encoding undoes decoding for every letter string. */
  lemma {:induction false} EncodeDecode(s: string)
    requires IsLetters(s)
    ensures ColumnLetter(ColumnNumber(s)) == s
    decreases |s|
  {
    if s != [] {
      var p, ch := s[..|s| - 1], s[|s| - 1];
      var v := ch as int - 'A' as int;
      EncodeDecode(p);
      var n := ColumnNumber(s);
      assert n - 1 == ColumnNumber(p) * 26 + v;
      assert (n - 1) / 26 == ColumnNumber(p);
      assert (n - 1) % 26 == v;
      assert Letter(v) == ch;
      assert s == p + [ch];
    }
  }

  /** Distinct positive columns get distinct letters, and every letter string
      is the encoding of exactly one column. */
  lemma ColumnLetterBijective(c1: int, c2: int, s: string)
    requires c1 >= 1 && c2 >= 1
    requires IsLetters(s) && s != []
    ensures ColumnLetter(c1) == ColumnLetter(c2) ==> c1 == c2
    ensures ColumnNumber(s) >= 1 && ColumnLetter(ColumnNumber(s)) == s
  {
    DecodeEncode(c1);
    DecodeEncode(c2);
    EncodeDecode(s);
  }

  /** Columns 1..26 are the single letters 'A'..'Z'; this is what the
      source's `string(rune('A' + i))` header columns compute. */
  lemma SingleLetterColumns(col: int)
    requires 1 <= col <= 26
    ensures ColumnLetter(col) == [('A' as int + col - 1) as char]
  {
    assert ColumnLetter((col - 1) / 26) == "";
  }

  lemma ColumnLetterExamples()
    ensures ColumnLetter(1) == "A"
    ensures ColumnLetter(2) == "B"
    ensures ColumnLetter(26) == "Z"
    ensures ColumnLetter(27) == "AA"
    ensures ColumnLetter(52) == "AZ"
    ensures ColumnLetter(53) == "BA"
    ensures ColumnLetter(702) == "ZZ"
    ensures ColumnLetter(703) == "AAA"
    ensures ColumnLetter(0) == "" && ColumnLetter(-5) == ""
  {
    assert ColumnLetter(1) == "A";
    assert ColumnLetter(2) == "B";
    assert ColumnLetter(26) == "Z";
    assert ColumnLetter(27) == "AA";
    assert ColumnLetter(52) == "AZ";
    assert ColumnLetter(53) == "BA";
    assert ColumnLetter(702) == "ZZ";
    assert ColumnLetter(703) == "AAA";
  }
}
