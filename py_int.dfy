/** Python's int() applied to a str in base 10, and str() of an int, its inverse. */
module PyInt {
  import opened PyStr
  import opened Wrappers

  predicate IsDigit(c: char) {
    '0' <= c <= '9'
  }

  function DigitValue(c: char): (d: nat)
    requires IsDigit(c)
    ensures d < 10
  {
    c as int - '0' as int
  }

  function DigitChar(d: nat): (c: char)
    requires d < 10
    ensures IsDigit(c) && DigitValue(c) == d
  {
    ('0' as int + d) as char
  }

  /** A run of decimal digits in which a single underscore may separate two digits,
      as int() accepts after the sign ("1_000", but not "_1", "1_" or "1__0"). */
  predicate IsDigitRun(t: string) {
    && |t| > 0 && IsDigit(t[0]) && IsDigit(t[|t| - 1])
    && (forall i :: 0 <= i < |t| ==> IsDigit(t[i]) || t[i] == '_')
    && (forall i, j {:trigger t[i], t[j]} :: 0 <= i && j == i + 1 < |t| && t[j] == '_' ==> IsDigit(t[i]))
  }

  predicate DigitsOrUnderscores(t: string) {
    forall i :: 0 <= i < |t| ==> IsDigit(t[i]) || t[i] == '_'
  }

  /** The number the digits of t spell, underscores skipped. */
  function DigitsValue(t: string): nat
    requires DigitsOrUnderscores(t)
  {
    if t == [] then 0
    else if t[|t| - 1] == '_' then DigitsValue(t[..|t| - 1])
    else 10 * DigitsValue(t[..|t| - 1]) + DigitValue(t[|t| - 1])
  }

  /** An integer literal as int() reads it once whitespace is gone: an optional sign,
      then a digit run. */
  function ParseLiteral(t: string): (r: Option<int>)
    ensures r.Some? && r.value < 0 ==> t != [] && t[0] == '-'
  {
    if t != [] && (t[0] == '+' || t[0] == '-') then
      if IsDigitRun(t[1..]) then
        var n: int := DigitsValue(t[1..]);
        Some(if t[0] == '-' then -n else n)
      else None
    else if IsDigitRun(t) then Some(DigitsValue(t))
    else None
  }

  /** int(s): surrounding whitespace is ignored, the rest must be a literal. Anything
      else is the ValueError the handler catches, here None. */
  function ParseInt(s: string): Option<int> {
    ParseLiteral(Strip(s))
  }

  predicate AllDigits(t: string) {
    forall i :: 0 <= i < |t| ==> IsDigit(t[i])
  }

  /** str(n) for n >= 0: its decimal digits without leading zeros. */
  function ShowNat(n: nat): (r: string)
    ensures r != [] && AllDigits(r) && (r[0] == '0' ==> n == 0)
  {
    if n < 10 then [DigitChar(n)] else ShowNat(n / 10) + [DigitChar(n % 10)]
  }

  /** str(n). */
  function ShowInt(n: int): (r: string)
    ensures r != [] && Trimmed(r)
  {
    if n < 0 then "-" + ShowNat(-n) else ShowNat(n)
  }

  lemma {:induction false} ShowNatValue(n: nat)
    ensures DigitsValue(ShowNat(n)) == n
  {
    if n >= 10 {
      var r := ShowNat(n);
      assert r[..|r| - 1] == ShowNat(n / 10);
      ShowNatValue(n / 10);
    }
  }

  /** A run of plain digits reads as its value, and with a '-' in front as the negated value. */
  lemma ParseLiteralDigits(u: string)
    requires u != [] && AllDigits(u)
    ensures ParseLiteral(u) == Some(DigitsValue(u))
    ensures ParseLiteral("-" + u) == Some(-(DigitsValue(u) as int))
  {
    assert ("-" + u)[1..] == u;
  }

  lemma ParseDigits(u: string, v: nat)
    requires u != [] && AllDigits(u) && DigitsValue(u) == v
    ensures ParseInt(u) == Some(v) && ParseInt("-" + u) == Some(-(v as int))
  {
    StripTrimmed(u);
    StripTrimmed("-" + u);
    ParseLiteralDigits(u);
  }

  /** int(str(n)) == n for every integer n, negative ones included. */
  lemma {:induction false} ParseShow(n: int)
    ensures ParseInt(ShowInt(n)) == Some(n)
  {
    var m: nat := if n < 0 then -n else n;
    ShowNatValue(m);
    ParseDigits(ShowNat(m), m);
  }

  /** int() ignores the whitespace str() never produces: padding the rendering of n with
      whitespace on either side still parses to n. */
  lemma ParsePaddedShow(pre: string, n: int, post: string)
    requires AllSpace(pre) && AllSpace(post)
    ensures ParseInt(pre + ShowInt(n) + post) == Some(n)
  {
    StripPadded(pre, ShowInt(n), post);
    ParseShow(n);
  }

  /** What int() accepts once whitespace is stripped: a digit run, or a sign and a digit run. */
  predicate IsLiteral(t: string) {
    IsDigitRun(t) || (t != [] && (t[0] == '+' || t[0] == '-') && IsDigitRun(t[1..]))
  }

  /** The salary step re-asks exactly when the stripped text is not a literal; an
      accepted sign-less literal is non-negative. */
  lemma ParseAcceptsIff(s: string)
    ensures ParseInt(s).Some? <==> IsLiteral(Strip(s))
    ensures ParseInt(s).Some? && ParseInt(s).value < 0 ==> Strip(s)[0] == '-'
  {
  }

  /** A single underscore between digits is accepted and ignored, as in Python literals. */
  lemma ParseUnderscore()
    ensures ParseInt("1_000") == Some(1000)
  {
    StripTrimmed("1_000");
    assert "1_000"[..4] == "1_00" && "1_00"[..3] == "1_0" && "1_0"[..2] == "1_" && "1_"[..1] == "1";
    assert IsDigitRun("1_000");
    assert DigitsValue("1") == 1 && DigitsValue("1_") == 1 && DigitsValue("1_0") == 10;
    assert DigitsValue("1_00") == 100 && DigitsValue("1_000") == 1000;
    assert ParseLiteral("1_000") == Some(1000);
  }

  /** A letter makes the whole message unreadable as a number. */
  lemma ParseRejectsLetter()
    ensures ParseInt("100k") == None
  {
    StripTrimmed("100k");
    assert "100k"[3] == 'k';
  }
}
