/** The string operations the relay's replies are built from: Python's
    `str(int)`, `"\n".join`, `str.replace("_", " ")`, ASCII `str.title()` and
    `f"{x:.2f}"` for rates given in hundredths, each with an inverse or a
    characterisation proved about it. */
module Text {
  import opened Wire

  // ---------------------------------------------------------------- decimals

  predicate IsDigit(c: char) { '0' <= c <= '9' }

  predicate AllDigits(s: string) {
    forall i :: 0 <= i < |s| ==> IsDigit(s[i])
  }

  function DigitChar(d: nat): (c: char)
    requires d < 10
    ensures IsDigit(c) && c as int - '0' as int == d
  {
    ('0' as int + d) as char
  }

  /** The decimal digits of `n`, most significant first, without leading zeros. */
  function Digits(n: nat): (s: string)
    ensures |s| > 0 && AllDigits(s)
    ensures s[0] == '0' ==> n == 0
    decreases n
  {
    if n < 10 then [DigitChar(n)] else Digits(n / 10) + [DigitChar(n % 10)]
  }

  /** The number a string of decimal digits denotes. */
  function DigitsValue(s: string): nat
    requires AllDigits(s)
    decreases |s|
  {
    if s == [] then 0
    else
      DigitsValue(s[..|s| - 1]) * 10 + (s[|s| - 1] as int - '0' as int)
  }

  lemma {:induction false} DigitsRoundTrip(n: nat)
    ensures DigitsValue(Digits(n)) == n
    decreases n
  {
    if n >= 10 {
      var s := Digits(n);
      assert s[..|s| - 1] == Digits(n / 10);
      DigitsRoundTrip(n / 10);
    }
  }

  /** Python's `str(n)` for an integer. */
  function Decimal(n: int): string {
    if n < 0 then "-" + Digits(-n) else Digits(n)
  }

  /** Python's `int(s)` restricted to an optional minus sign followed by digits. */
  function ParseDecimal(s: string): Option<int> {
    if |s| > 0 && s[0] == '-' then
      if |s| > 1 && AllDigits(s[1..]) then Some(0 - DigitsValue(s[1..])) else None
    else if |s| > 0 && AllDigits(s) then Some(DigitsValue(s))
    else None
  }

  lemma DecimalRoundTrip(n: int)
    ensures ParseDecimal(Decimal(n)) == Some(n)
  {
    var s := Decimal(n);
    if n < 0 {
      var d := Digits(-n);
      assert s == "-" + d && s[0] == '-' && s[1..] == d;
      DigitsRoundTrip(-n);
      assert ParseDecimal(s) == Some(0 - DigitsValue(d));
    } else {
      assert IsDigit(s[0]) && s[0] != '-';
      DigitsRoundTrip(n);
      assert ParseDecimal(s) == Some(DigitsValue(s));
    }
  }

  /** `f"{x:.2f}"` for a non-negative rate given in hundredths. */
  function Fixed2(centi: nat): string {
    var cents := centi % 100;
    Digits(centi / 100) + "." + [DigitChar(cents / 10), DigitChar(cents % 10)]
  }

  /** Reads back a two-decimal fixed-point text as a number of hundredths. */
  function ParseFixed2(s: string): Option<nat> {
    if |s| >= 4 && s[|s| - 3] == '.' && AllDigits(s[..|s| - 3]) && AllDigits(s[|s| - 2..]) then
      Some(DigitsValue(s[..|s| - 3] + s[|s| - 2..]))
    else None
  }

  lemma Fixed2RoundTrip(centi: nat)
    ensures ParseFixed2(Fixed2(centi)) == Some(centi)
  {
    var s := Fixed2(centi);
    var q, cents := centi / 100, centi % 100;
    var whole := Digits(q);
    var d1, d0 := DigitChar(cents / 10), DigitChar(cents % 10);
    assert s[..|s| - 3] == whole;
    assert s[|s| - 2..] == [d1, d0];
    var t := whole + [d1, d0];
    assert t[..|t| - 1] == whole + [d1];
    assert (whole + [d1])[..|whole|] == whole;
    DigitsRoundTrip(q);
    assert DigitsValue(whole + [d1]) == q * 10 + cents / 10;
    assert DigitsValue(t) == (q * 10 + cents / 10) * 10 + cents % 10;
    assert centi == q * 100 + cents && cents == cents / 10 * 10 + cents % 10;
  }

  // ------------------------------------------------------- join and split

  /** Python's `"\n".join(lines)`. */
  function JoinLines(lines: seq<string>): string {
    if |lines| == 0 then ""
    else if |lines| == 1 then lines[0]
    else lines[0] + "\n" + JoinLines(lines[1..])
  }

  /** Position of the first `c` in `s`, or `|s|` when there is none. */
  function IndexOf(s: string, c: char): (i: nat)
    ensures i <= |s|
    ensures i < |s| ==> s[i] == c
    ensures forall j :: 0 <= j < i ==> s[j] != c
  {
    if |s| == 0 || s[0] == c then 0 else 1 + IndexOf(s[1..], c)
  }

  /** Python's `s.split("\n")`. */
  function SplitLines(s: string): seq<string>
    decreases |s|
  {
    var i := IndexOf(s, '\n');
    if i == |s| then [s] else [s[..i]] + SplitLines(s[i + 1..])
  }

  predicate NoNewline(lines: seq<string>) {
    forall k :: 0 <= k < |lines| ==> '\n' !in lines[k]
  }

  /** Joining a non-empty list of newline-free lines and splitting the
      result gives the list back. */
  lemma {:induction false} SplitJoin(lines: seq<string>)
    requires |lines| > 0 && NoNewline(lines)
    ensures SplitLines(JoinLines(lines)) == lines
    decreases |lines|
  {
    var x := lines[0];
    assert '\n' !in x;
    if |lines| == 1 {
      assert IndexOf(x, '\n') == |x|;
    } else {
      var rest := JoinLines(lines[1..]);
      var s := x + "\n" + rest;
      assert s[|x|] == '\n';
      var i := IndexOf(s, '\n');
      assert forall j :: 0 <= j < |x| ==> s[j] == x[j];
      assert i == |x|;
      assert s[..i] == x;
      assert s[i + 1..] == rest;
      SplitJoin(lines[1..]);
    }
  }

  // ----------------------------------------------------------- case and spaces

  predicate IsAsciiLetter(c: char) { 'a' <= c <= 'z' || 'A' <= c <= 'Z' }

  function Upper(c: char): char {
    if 'a' <= c <= 'z' then (c as int - 32) as char else c
  }

  function Lower(c: char): char {
    if 'A' <= c <= 'Z' then (c as int + 32) as char else c
  }

  /** Title-cases `s`, where `afterLetter` tells whether the character
      before `s` was a letter. */
  function TitleFrom(s: string, afterLetter: bool): string
    decreases |s|
  {
    if s == [] then []
    else
      var c := s[0];
      [if !IsAsciiLetter(c) then c else if afterLetter then Lower(c) else Upper(c)]
      + TitleFrom(s[1..], IsAsciiLetter(c))
  }

  /** Python's `s.title()` on ASCII letters: a letter is upper-cased when it
      starts a run of letters and lower-cased otherwise; every other
      character is left as it is. */
  function Title(s: string): string {
    TitleFrom(s, false)
  }

  /** The character `Title` puts at position `i`. */
  function TitleCharAt(s: string, i: nat): char
    requires i < |s|
  {
    var c := s[i];
    if !IsAsciiLetter(c) then c
    else if i > 0 && IsAsciiLetter(s[i - 1]) then Lower(c)
    else Upper(c)
  }

  lemma {:induction false} TitleFromAt(s: string, afterLetter: bool, i: nat)
    requires i < |s|
    ensures |TitleFrom(s, afterLetter)| == |s|
    ensures TitleFrom(s, afterLetter)[i] ==
      (if !IsAsciiLetter(s[i]) then s[i]
       else if (if i == 0 then afterLetter else IsAsciiLetter(s[i - 1])) then Lower(s[i])
       else Upper(s[i]))
    decreases |s|
  {
    if |s| > 1 {
      TitleFromAt(s[1..], IsAsciiLetter(s[0]), if i == 0 then 0 else i - 1);
    }
  }

  /** The characterisation of `Title`: same length, and position by position
      the rule stated by `TitleCharAt`. */
  lemma TitleAt(s: string)
    ensures |Title(s)| == |s|
    ensures forall i :: 0 <= i < |s| ==> Title(s)[i] == TitleCharAt(s, i)
  {
    if |s| > 0 {
      TitleFromAt(s, false, 0);
    }
    forall i | 0 <= i < |s| ensures Title(s)[i] == TitleCharAt(s, i) {
      TitleFromAt(s, false, i);
    }
  }

  /** Title-casing twice is title-casing once. */
  lemma TitleIdempotent(s: string)
    ensures Title(Title(s)) == Title(s)
  {
    var t := Title(s);
    TitleAt(s);
    TitleAt(t);
    forall i | 0 <= i < |s| ensures Title(t)[i] == t[i] {
      assert IsAsciiLetter(t[i]) == IsAsciiLetter(s[i]);
      if i > 0 {
        assert IsAsciiLetter(t[i - 1]) == IsAsciiLetter(s[i - 1]);
      }
    }
  }

  /** Python's `s.replace("_", " ")`. */
  function UnderscoresToSpaces(s: string): (r: string)
    ensures |r| == |s| && '_' !in r
    ensures forall i :: 0 <= i < |s| && s[i] != '_' ==> r[i] == s[i]
    ensures forall i :: 0 <= i < |s| && s[i] == '_' ==> r[i] == ' '
  {
    seq(|s|, i requires 0 <= i < |s| => if s[i] == '_' then ' ' else s[i])
  }

  /** The field label of one dimension: `name.replace("_", " ").title()`. */
  function DimensionLabel(name: string): (shown: string)
    ensures |shown| == |name| && '_' !in shown
    ensures forall i :: 0 <= i < |name| ==> shown[i] == TitleCharAt(UnderscoresToSpaces(name), i)
    ensures Title(shown) == shown
  {
    var spaced := UnderscoresToSpaces(name);
    TitleAt(spaced);
    TitleIdempotent(spaced);
    Title(spaced)
  }
}
