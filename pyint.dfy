/** CircuitPython's `int(text)` conversion and `str(n)` formatting, the two
    builtins the terminal's `stoi` helper rests on.  The runtime's integer
    parser skips surrounding ASCII whitespace, takes one optional sign, and
    then reads a non-empty run of ASCII digits and underscores, skipping the
    underscores wherever they stand (so `_` alone reads as 0); anything else
    raises ValueError, which is `None` here. */
module PyInt {

  import opened Wrappers

  /** The ASCII whitespace characters `int()` skips around a number. */
  predicate IsSpace(c: char) {
    c == ' ' || c == '\t' || c == '\n' || c == '\r' || c == '\U{B}' || c == '\U{C}'
  }

  predicate IsDigit(c: char) {
    '0' <= c <= '9'
  }

  function DigitValue(c: char): (d: nat)
    requires IsDigit(c)
    ensures d < 10
  {
    (c as int - '0' as int) as nat
  }

  function DigitChar(d: nat): (c: char)
    requires d < 10
    ensures IsDigit(c) && DigitValue(c) == d
  {
    ('0' as int + d) as char
  }

  /** `s` without its leading whitespace. */
  function StripLeft(s: string): (r: string)
    ensures |r| <= |s| && r == s[|s| - |r|..]
    ensures r == [] || !IsSpace(r[0])
    ensures forall i :: 0 <= i < |s| - |r| ==> IsSpace(s[i])
  {
    if s != [] && IsSpace(s[0]) then StripLeft(s[1..]) else s
  }

  /** `s` without its trailing whitespace. */
  function StripRight(s: string): (r: string)
    ensures |r| <= |s| && r == s[..|r|]
    ensures r == [] || !IsSpace(r[|r| - 1])
    ensures forall i :: |r| <= i < |s| ==> IsSpace(s[i])
  {
    if s != [] && IsSpace(s[|s| - 1]) then StripRight(s[..|s| - 1]) else s
  }

  function Strip(s: string): string {
    StripRight(StripLeft(s))
  }

  /** What the parser accepts after the sign: a non-empty run of digits and
      underscores, in any order. */
  predicate IsDigitPart(s: string) {
    |s| > 0 && DigitsOrUnderscores(s)
  }

  predicate DigitsOrUnderscores(s: string) {
    forall i :: 0 <= i < |s| ==> IsDigit(s[i]) || s[i] == '_'
  }

  /** The number the digits of `s` spell, underscores ignored. */
  function DigitsValue(s: string): nat
    requires DigitsOrUnderscores(s)
  {
    if s == [] then 0
    else if s[|s| - 1] == '_' then DigitsValue(s[..|s| - 1])
    else 10 * DigitsValue(s[..|s| - 1]) + DigitValue(s[|s| - 1])
  }

  /** `int(text)`: `Some(value)` when the text parses, `None` for ValueError. */
  function ParseInt(text: string): Option<int> {
    ParseSigned(Strip(text))
  }

  /** `int()` on text already stripped of surrounding whitespace. */
  function ParseSigned(s: string): Option<int> {
    if |s| > 0 && (s[0] == '+' || s[0] == '-') then
      if IsDigitPart(s[1..]) then
        var v: int := DigitsValue(s[1..]);
        Some(if s[0] == '-' then -v else v)
      else None
    else if IsDigitPart(s) then Some(DigitsValue(s))
    else None
  }

  /** Text that neither starts nor ends with whitespace is its own stripped form. */
  lemma {:induction false} StripUnspaced(s: string)
    requires s == [] || (!IsSpace(s[0]) && !IsSpace(s[|s| - 1]))
    ensures Strip(s) == s
  {
  }

  /** A digit run converts to the number it spells. */
  lemma {:induction false} ParseDigitPart(s: string, m: nat)
    requires IsDigitPart(s) && DigitsValue(s) == m
    ensures ParseInt(s) == Some(m as int)
  {
    assert !IsSpace(s[0]) && !IsSpace(s[|s| - 1]) && s[0] != '+' && s[0] != '-';
    StripUnspaced(s);
    assert ParseInt(s) == ParseSigned(s);
  }

  /** A minus sign before a digit run negates the number. */
  lemma {:induction false} ParseNegatedDigitPart(s: string, m: nat)
    requires IsDigitPart(s) && DigitsValue(s) == m
    ensures ParseInt("-" + s) == Some(-(m as int))
  {
    var t := "-" + s;
    assert t[0] == '-' && t[1..] == s && t[|t| - 1] == s[|s| - 1];
    assert !IsSpace(t[|t| - 1]);
    StripUnspaced(t);
    assert ParseSigned(t) == Some(-(m as int));
  }

  /** Python's `str(n)` for a natural number: its decimal digits, no leading zero. */
  function NatToString(n: nat): (s: string)
    ensures |s| > 0 && forall i :: 0 <= i < |s| ==> IsDigit(s[i])
    ensures n > 0 ==> s[0] != '0'
  {
    if n < 10 then [DigitChar(n)] else NatToString(n / 10) + [DigitChar(n % 10)]
  }

  /** Python's `str(n)` for any integer. */
  function IntToString(n: int): string {
    if n < 0 then "-" + NatToString(-n) else NatToString(n)
  }

  lemma {:induction false} NatToStringValue(n: nat)
    ensures IsDigitPart(NatToString(n))
    ensures DigitsValue(NatToString(n)) == n
  {
    var s := NatToString(n);
    if n >= 10 {
      NatToStringValue(n / 10);
      assert s[..|s| - 1] == NatToString(n / 10);
    }
  }

  /** `int(str(n)) == n` for every integer `n`. */
  lemma {:induction false} ParseIntRoundTrip(n: int)
    ensures ParseInt(IntToString(n)) == Some(n)
  {
    if n < 0 {
      NatToStringValue(-n);
      ParseNegatedDigitPart(NatToString(-n), -n);
    } else {
      NatToStringValue(n);
      ParseDigitPart(NatToString(n), n);
    }
  }

  /** A single character converts exactly when it is a digit or an
      underscore: a digit to its value, the underscore to 0. */
  lemma {:induction false} ParseOneChar(c: char)
    ensures ParseInt([c]).Some? <==> IsDigit(c) || c == '_'
    ensures IsDigit(c) ==> ParseInt([c]) == Some(DigitValue(c))
    ensures c == '_' ==> ParseInt([c]) == Some(0)
  {
    if IsDigit(c) {
      assert [c][..0] == [];
      assert DigitsValue([c]) == DigitValue(c);
      ParseDigitPart([c], DigitValue(c));
    } else if c == '_' {
      assert [c][..0] == [];
      assert DigitsValue([c]) == 0;
      ParseDigitPart([c], 0);
    } else if IsSpace(c) {
      assert StripLeft([c]) == [];
    } else {
      StripUnspaced([c]);
      assert ParseInt([c]) == ParseSigned([c]);
      assert [c][1..] == [];
    }
  }

  /** The empty text is not a number. */
  lemma {:induction false} ParseEmpty()
    ensures ParseInt([]) == None
  {
    assert Strip([]) == [];
  }

  /** Two digits convert to the two-digit number they spell, leading zero allowed. */
  lemma {:induction false} ParseTwoDigits(a: char, b: char)
    requires IsDigit(a) && IsDigit(b)
    ensures ParseInt([a, b]).Some? && ParseInt([a, b]).value == 10 * DigitValue(a) + DigitValue(b)
  {
    var s := [a, b];
    TwoDigitsPart(a, b);
    TwoDigitsValue(a, b);
    ParseDigitPart(s, 10 * DigitValue(a) + DigitValue(b));
  }

  lemma {:induction false} TwoDigitsPart(a: char, b: char)
    requires IsDigit(a) && IsDigit(b)
    ensures IsDigitPart([a, b])
  {
    var s := [a, b];
    assert forall i :: 0 <= i < |s| ==> IsDigit(s[i]);
  }

  lemma {:induction false} TwoDigitsValue(a: char, b: char)
    requires IsDigit(a) && IsDigit(b)
    ensures DigitsValue([a, b]) == 10 * DigitValue(a) + DigitValue(b)
  {
    var s := [a, b];
    assert s[..1] == [a];
    assert [a][..0] == [];
    assert DigitsValue([]) == 0;
    assert DigitsValue([a]) == DigitValue(a);
    assert DigitsValue(s) == 10 * DigitsValue([a]) + DigitValue(b);
  }
}
