/**
 * Base-10 conversion between unsigned 64-bit integers and strings, as Go's
 * strconv.ParseUint(s, 10, 64) and strconv.FormatUint(n, 10) perform it.
 */
module Decimal {
  import opened Results

  const MAX_UINT64: nat := 0xFFFF_FFFF_FFFF_FFFF

  /** Go's uint64. */
  type uint64 = x: int | 0 <= x <= 0xFFFF_FFFF_FFFF_FFFF

  /** ParseUint's bound: from this value on, multiplying by the base overflows. */
  const CUTOFF: nat := MAX_UINT64 / 10 + 1

  predicate IsDigit(c: char)
  {
    '0' <= c <= '9'
  }

  predicate AllDigits(s: string)
  {
    forall i :: 0 <= i < |s| ==> IsDigit(s[i])
  }

  function DigitValue(c: char): (d: nat)
    requires IsDigit(c)
    ensures d < 10
  {
    c as int - '0' as int
  }

  function DigitChar(d: nat): (c: char)
    requires d < 10
    ensures IsDigit(c) && DigitValue(c) == d
  {
    ('0' as int + d) as char
  }

  /** The number a string of decimal digits denotes, most significant digit first. */
  function Value(s: string): nat
    requires AllDigits(s)
    decreases |s|
  {
    if s == [] then 0 else 10 * Value(s[..|s| - 1]) + DigitValue(s[|s| - 1])
  }

  /** The length of the longest prefix of `s` made of digits only. */
  function DigitRun(s: string): (k: nat)
    ensures k <= |s| && AllDigits(s[..k])
    ensures k < |s| ==> !IsDigit(s[k])
  {
    if s == [] || !IsDigit(s[0]) then 0
    else
      var k' := DigitRun(s[1..]);
      assert s[..k' + 1] == [s[0]] + s[1..][..k'];
      k' + 1
  }

  /**
   * strconv.ParseUint(s, 10, 64). The digits are consumed left to right; the
   * first character that is not a digit is a syntax error and the first digit
   * that takes the value past 2^64-1 is a range error, whichever comes first.
   * There is no sign, no base prefix and no underscore in base 10.
   */
  function ParseUint(s: string): (r: Result<uint64>)
    ensures s == [] ==> r == Err(ParseSyntax)
    ensures r.Ok? ==> s != [] && AllDigits(s)
    ensures r.Err? ==> r.error == ParseSyntax || r.error == ParseRange
  {
    if s == [] then Err(ParseSyntax) else Accumulate(s, 0, 0)
  }

  /** ParseUint's loop: `n` is the value of the digits before position `i`. */
  function Accumulate(s: string, i: nat, n: uint64): (r: Result<uint64>)
    requires i <= |s|
    ensures r.Ok? ==> AllDigits(s[i..]) && n <= r.value
    ensures r.Err? ==> r.error == ParseSyntax || r.error == ParseRange
    decreases |s| - i
  {
    if i == |s| then Ok(n)
    else if !IsDigit(s[i]) then Err(ParseSyntax)
    else if n >= CUTOFF then Err(ParseRange)
    else if 10 * n + DigitValue(s[i]) > MAX_UINT64 then Err(ParseRange)
    else Accumulate(s, i + 1, 10 * n + DigitValue(s[i]))
  }

  /**
   * What ParseUint returns, stated over the whole string rather than digit by
   * digit: the empty string is a syntax error; otherwise, if the leading run of
   * digits already denotes more than 2^64-1 the result is a range error, else a
   * character after that run is a syntax error, else the string's value.
   */
  function ParseSpec(s: string): Result<uint64>
  {
    var k := DigitRun(s);
    if s == [] then Err(ParseSyntax)
    else if Value(s[..k]) > MAX_UINT64 then Err(ParseRange)
    else if k < |s| then Err(ParseSyntax)
    else Ok(Value(s[..k]))
  }

  /** strconv.FormatUint(n, 10): the shortest decimal digit string of `n`. */
  function FormatUint(n: nat): (s: string)
    ensures s != [] && AllDigits(s) && Value(s) == n
    ensures s[0] == '0' ==> s == "0"
    decreases n
  {
    if n < 10 then [DigitChar(n)]
    else
      var p := FormatUint(n / 10);
      var s := p + [DigitChar(n % 10)];
      assert s[..|s| - 1] == p;
      s
  }

  /** A string with no superfluous leading zero: what FormatUint produces. */
  predicate Canonical(s: string)
  {
    s != [] && AllDigits(s) && (s[0] == '0' ==> |s| == 1)
  }

  /** A longer prefix of a digit string never denotes less. */
  lemma {:induction false} ValuePrefixMonotone(t: string, i: nat)
    requires AllDigits(t) && i <= |t|
    ensures Value(t[..i]) <= Value(t)
    decreases |t|
  {
    if i < |t| {
      var u := t[..|t| - 1];
      assert u[..i] == t[..i];
      ValuePrefixMonotone(u, i);
    } else {
      assert t[..i] == t;
    }
  }

  /** Appending one digit multiplies by ten and adds the digit. */
  lemma ValueSnoc(s: string, i: nat)
    requires i < |s| && AllDigits(s[..i + 1])
    ensures AllDigits(s[..i]) && Value(s[..i + 1]) == 10 * Value(s[..i]) + DigitValue(s[i])
  {
    assert s[..i + 1][..i] == s[..i];
  }

  /** ParseUint's loop, started anywhere inside the leading run of digits, ends as ParseSpec says. */
  lemma {:induction false} AccumulateFromPrefix(s: string, i: nat)
    requires i <= DigitRun(s) && AllDigits(s[..i]) && Value(s[..i]) <= MAX_UINT64
    ensures var k := DigitRun(s);
      Accumulate(s, i, Value(s[..i])) ==
        if Value(s[..k]) > MAX_UINT64 then Err(ParseRange)
        else if k < |s| then Err(ParseSyntax)
        else Ok(Value(s[..k]))
    decreases |s| - i
  {
    var k := DigitRun(s);
    var n := Value(s[..i]);
    if i < k {
      assert IsDigit(s[i]) by { assert s[..k][i] == s[i]; }
      assert s[..k][..i + 1] == s[..i + 1];
      ValueSnoc(s, i);
      ValuePrefixMonotone(s[..k], i + 1);
      if n < CUTOFF && 10 * n + DigitValue(s[i]) <= MAX_UINT64 {
        AccumulateFromPrefix(s, i + 1);
      }
    }
  }

  /** ParseUint meets its whole-string description on every input. */
  lemma ParseUintMatchesSpec(s: string)
    ensures ParseUint(s) == ParseSpec(s)
  {
    if s != [] {
      assert s[..0] == [];
      AccumulateFromPrefix(s, 0);
    }
  }

  /** ParseUint succeeds exactly on the non-empty digit strings denoting at most 2^64-1, with their value. */
  lemma ParseUintOk(s: string)
    ensures ParseUint(s).Ok? <==> s != [] && AllDigits(s) && Value(s) <= MAX_UINT64
    ensures ParseUint(s).Ok? ==> ParseUint(s).value == Value(s)
    ensures ParseUint(s).Err? ==> ParseUint(s).error in {ParseSyntax, ParseRange}
  {
    ParseUintMatchesSpec(s);
    var k := DigitRun(s);
    if AllDigits(s) {
      assert k == |s|;
      assert s[..k] == s;
    }
  }

  /** Printing then parsing gives the number back. */
  lemma ParseFormatRoundTrip(n: uint64)
    ensures ParseUint(FormatUint(n)) == Ok(n)
  {
    ParseUintOk(FormatUint(n));
  }

  /** A digit string whose first digit is not zero denotes a positive number. */
  lemma {:induction false} ValuePositive(s: string)
    requires s != [] && AllDigits(s) && s[0] != '0'
    ensures Value(s) >= 1
    decreases |s|
  {
    if |s| > 1 {
      var p := s[..|s| - 1];
      assert p[0] == s[0];
      ValuePositive(p);
    }
  }

  /** A canonical digit string is the printed form of its value. */
  lemma {:induction false} FormatValue(s: string)
    requires Canonical(s)
    ensures FormatUint(Value(s)) == s
    decreases |s|
  {
    var c := s[|s| - 1];
    if |s| == 1 {
      assert s[..0] == [];
      assert DigitChar(DigitValue(c)) == c;
    } else {
      var p := s[..|s| - 1];
      assert p[0] == s[0];
      ValuePositive(p);
      FormatValue(p);
      var d := DigitValue(c);
      assert Value(s) == 10 * Value(p) + d;
      assert Value(s) / 10 == Value(p) && Value(s) % 10 == d;
      assert DigitChar(d) == c;
      assert s == p + [c];
    }
  }

  /** Parsing then printing gives a canonical string back. */
  lemma FormatParseRoundTrip(s: string)
    requires ParseUint(s).Ok? && Canonical(s)
    ensures FormatUint(ParseUint(s).value) == s
  {
    ParseUintOk(s);
    FormatValue(s);
  }
}
