/**
 * The three Python string built-ins the feature deriver relies on, restricted
 * to ASCII: `str.split` with a one-character separator, `str.isdigit`, and
 * `int` applied to a string of decimal digits.
 */
module PyText {

  /** Number of occurrences of `c` in `s`. */
  function Count(s: string, c: char): (n: nat)
    ensures n == 0 <==> c !in s
  {
    if s == [] then 0
    else (if s[0] == c then 1 else 0) + Count(s[1..], c)
  }

  /** Index of the first `c` in `s`, or `|s|` when there is none. */
  function FieldEnd(s: string, c: char): (i: nat)
    ensures i <= |s| && c !in s[..i]
    ensures i < |s| ==> s[i] == c
    ensures i == |s| <==> c !in s
  {
    if s == [] then 0
    else if s[0] == c then 0
    else
      var j := FieldEnd(s[1..], c);
      assert s[..j + 1] == [s[0]] + s[1..][..j];
      j + 1
  }

  /** `sep.join(pieces)`: the pieces with one separator between neighbours. */
  function Join(pieces: seq<string>, sep: char): string
    requires |pieces| >= 1
  {
    if |pieces| == 1 then pieces[0] else pieces[0] + [sep] + Join(pieces[1..], sep)
  }

  /**
   * `s.split(sep)`: cuts `s` at every occurrence of `sep`, so there is always one
   * piece more than there are separators, empty pieces included.
   */
  function Split(s: string, sep: char): (pieces: seq<string>)
    ensures |pieces| == Count(s, sep) + 1
    ensures forall i :: 0 <= i < |pieces| ==> sep !in pieces[i]
    ensures Join(pieces, sep) == s
  {
    if s == [] then [""]
    else
      var rest := Split(s[1..], sep);
      if s[0] == sep then
        assert ([""] + rest)[1..] == rest;
        [""] + rest
      else
        var pieces := [[s[0]] + rest[0]] + rest[1..];
        assert pieces[1..] == rest[1..];
        assert |rest| > 1 ==> Join(rest, sep) == rest[0] + [sep] + Join(rest[1..], sep);
        pieces
  }

  /** A separator-free string is a single piece. */
  lemma {:induction false} SplitWithoutSeparator(a: string, sep: char)
    requires sep !in a
    ensures Split(a, sep) == [a]
  {
    if a != [] {
      SplitWithoutSeparator(a[1..], sep);
    }
  }

  /** A separator-free prefix followed by the separator becomes the first piece. */
  lemma {:induction false} SplitAtFirstSeparator(a: string, sep: char, b: string)
    requires sep !in a
    ensures Split(a + [sep] + b, sep) == [a] + Split(b, sep)
  {
    var s := a + [sep] + b;
    if a == [] {
      assert s[1..] == b;
    } else {
      assert s[0] == a[0] && s[0] != sep;
      assert s[1..] == a[1..] + [sep] + b;
      SplitAtFirstSeparator(a[1..], sep, b);
      var rest := Split(s[1..], sep);
      assert rest == [a[1..]] + Split(b, sep);
      assert Split(s, sep) == [[s[0]] + rest[0]] + rest[1..];
      assert rest[1..] == Split(b, sep);
      assert [s[0]] + rest[0] == a;
    }
  }

  /** A separator-free prefix is the first piece, whether the rest is empty or starts with the separator. */
  lemma FirstPiece(b: string, sep: char, tail: string)
    requires sep !in b
    requires tail == [] || tail[0] == sep
    ensures |Split(b + tail, sep)| >= 1 && Split(b + tail, sep)[0] == b
  {
    if tail == [] {
      assert b + tail == b;
      SplitWithoutSeparator(b, sep);
    } else {
      assert b + tail == b + [sep] + tail[1..];
      SplitAtFirstSeparator(b, sep, tail[1..]);
    }
  }

  /**
   * The first two pieces of a split are the text before the first separator and
   * the text up to the second one (or the end), whatever follows.
   */
  lemma SplitFirstTwo(a: string, sep: char, b: string, tail: string)
    requires sep !in a && sep !in b
    requires tail == [] || tail[0] == sep
    ensures var pieces := Split(a + [sep] + b + tail, sep);
      |pieces| >= 2 && pieces[0] == a && pieces[1] == b
  {
    assert a + [sep] + b + tail == a + [sep] + (b + tail);
    SplitAtFirstSeparator(a, sep, b + tail);
    FirstPiece(b, sep, tail);
  }

  /** `split` undoes `join` whenever no piece contains the separator. */
  lemma {:induction false} SplitJoin(pieces: seq<string>, sep: char)
    requires |pieces| >= 1
    requires forall i :: 0 <= i < |pieces| ==> sep !in pieces[i]
    ensures Split(Join(pieces, sep), sep) == pieces
  {
    if |pieces| == 1 {
      SplitWithoutSeparator(pieces[0], sep);
    } else {
      SplitJoin(pieces[1..], sep);
      SplitAtFirstSeparator(pieces[0], sep, Join(pieces[1..], sep));
      assert [pieces[0]] + pieces[1..] == pieces;
    }
  }

  predicate IsDigit(ch: char) {
    '0' <= ch <= '9'
  }

  /** Every character is an ASCII decimal digit (the empty string qualifies). */
  predicate AllDigits(s: string) {
    forall i :: 0 <= i < |s| ==> IsDigit(s[i])
  }

  /** `s.isdigit()`: non-empty and every character is a decimal digit. */
  predicate IsDigits(s: string) {
    |s| > 0 && AllDigits(s)
  }

  /** A character that is not a digit does not occur in a digit string. */
  lemma DigitsExclude(s: string, c: char)
    requires AllDigits(s) && !IsDigit(c)
    ensures c !in s
  {
    forall i | 0 <= i < |s| ensures s[i] != c {
      assert IsDigit(s[i]);
    }
  }

  function DigitValue(ch: char): (d: nat)
    requires IsDigit(ch)
    ensures d < 10
  {
    ch as int - '0' as int
  }

  function Pow10(k: nat): (p: nat)
    ensures p >= 1
  {
    if k == 0 then 1 else 10 * Pow10(k - 1)
  }

  /**
   * `int(s)` for a string of decimal digits: the base-10 value, leading zeros
   * allowed. It is below 10 to the number of digits.
   */
  function DecimalValue(s: string): (n: nat)
    requires AllDigits(s)
    ensures n < Pow10(|s|)
  {
    if s == [] then 0
    else
      var init := s[..|s| - 1];
      var v := DecimalValue(init);
      assert v <= Pow10(|init|) - 1;
      assert 10 * v <= 10 * Pow10(|init|) - 10;
      10 * v + DigitValue(s[|s| - 1])
  }

  function DigitChar(d: nat): (ch: char)
    requires d < 10
    ensures IsDigit(ch) && DigitValue(ch) == d
  {
    ('0' as int + d) as char
  }

  /**
   * `str(n)`: the canonical decimal rendering of `n`, with no leading zero
   * unless `n` is 0.
   */
  function ToDecimal(n: nat): (s: string)
    ensures IsDigits(s)
    ensures s[0] == '0' ==> s == "0"
  {
    if n < 10 then [DigitChar(n)] else ToDecimal(n / 10) + [DigitChar(n % 10)]
  }

  /** `int(str(n)) == n`. */
  lemma {:induction false} DecimalOfToDecimal(n: nat)
    ensures DecimalValue(ToDecimal(n)) == n
  {
    var s := ToDecimal(n);
    if n >= 10 {
      DecimalOfToDecimal(n / 10);
      assert s[..|s| - 1] == ToDecimal(n / 10);
    }
  }

  /** `int` ignores leading zeros: `int("0" + s) == int(s)`. */
  lemma {:induction false} LeadingZeroIgnored(s: string)
    requires IsDigits(s)
    ensures DecimalValue("0" + s) == DecimalValue(s)
  {
    var z := "0" + s;
    assert z[..|z| - 1] == "0" + s[..|s| - 1];
    if |s| == 1 {
      assert DecimalValue("0") == 0;
    } else {
      LeadingZeroIgnored(s[..|s| - 1]);
    }
  }

  /** A digit string that does not start with '0' (other than "0") is at least 10 to its length minus one. */
  lemma {:induction false} LeadingDigitBound(s: string)
    requires IsDigits(s) && s[0] != '0'
    ensures DecimalValue(s) >= Pow10(|s| - 1)
  {
    if |s| > 1 {
      LeadingDigitBound(s[..|s| - 1]);
    }
  }

  /** `str(int(s)) == s` for a digit string in canonical form: no leading zero unless it is "0". */
  lemma {:induction false} ToDecimalOfDecimal(s: string)
    requires IsDigits(s) && (s[0] != '0' || s == "0")
    ensures ToDecimal(DecimalValue(s)) == s
  {
    var last := s[|s| - 1];
    var d := DigitValue(last);
    assert DigitChar(d) == last;
    if |s| > 1 {
      var init := s[..|s| - 1];
      LeadingDigitBound(init);
      ToDecimalOfDecimal(init);
      var n := DecimalValue(s);
      assert n == 10 * DecimalValue(init) + d;
      assert n / 10 == DecimalValue(init) && n % 10 == d;
      assert s == init + [last];
    }
  }
}
