/**
 * Small text routines the application relies on implicitly through Python:
 * rendering an integer in decimal (f-strings), reading one back (`int(...)`),
 * and splitting a comma-separated list (`str.split(',')`).
 */
module Text {
  import opened Wrappers

  predicate IsDigit(c: char) {
    '0' <= c <= '9'
  }

  predicate AllDigits(s: string) {
    forall i :: 0 <= i < |s| ==> IsDigit(s[i])
  }

  function DigitChar(d: nat): (c: char)
    requires d < 10
    ensures IsDigit(c)
  {
    ('0' as int + d) as char
  }

  function DigitValue(c: char): (d: nat)
    requires IsDigit(c)
    ensures d < 10
  {
    c as int - '0' as int
  }

  /** The decimal digits of `n`, most significant first, without leading zeros. */
  function NatToText(n: nat): (s: string)
    ensures |s| >= 1 && AllDigits(s)
    ensures |s| > 1 ==> s[0] != '0'
  {
    if n < 10 then [DigitChar(n)] else NatToText(n / 10) + [DigitChar(n % 10)]
  }

  /** The value of a string of decimal digits, read left to right. */
  function DigitsValue(s: string): nat
    requires AllDigits(s)
  {
    if s == [] then 0 else DigitsValue(s[..|s| - 1]) * 10 + DigitValue(s[|s| - 1])
  }

  /** Decimal rendering of a signed integer, as Python's `f"{n}"` writes it. */
  function IntToText(n: int): (s: string)
    ensures |s| >= 1
    ensures n < 0 <==> s[0] == '-'
  {
    if n < 0 then "-" + NatToText(-n) else NatToText(n)
  }

  /**
   * Reading an integer from text, as `int(s)` does for an optional sign followed
   * by ASCII digits; any other text is not a number (None).
   */
  function ParseInt(s: string): (r: Option<int>)
    ensures r.Some? <==>
              (|s| >= 1 && AllDigits(s)) ||
              (|s| >= 2 && (s[0] == '-' || s[0] == '+') && AllDigits(s[1..]))
  {
    if |s| >= 1 && AllDigits(s) then Some(DigitsValue(s))
    else if |s| >= 2 && s[0] == '-' && AllDigits(s[1..]) then Some(-(DigitsValue(s[1..]) as int))
    else if |s| >= 2 && s[0] == '+' && AllDigits(s[1..]) then Some(DigitsValue(s[1..]))
    else None
  }

  lemma {:induction false} DigitsOfNat(n: nat)
    ensures DigitsValue(NatToText(n)) == n
  {
    if n >= 10 {
      var s := NatToText(n);
      assert s[..|s| - 1] == NatToText(n / 10);
      DigitsOfNat(n / 10);
    }
  }

  /** Rendering then reading an integer gives it back. */
  lemma ParseIntRoundTrip(n: int)
    ensures ParseInt(IntToText(n)) == Some(n)
  {
    if n < 0 {
      var digits := NatToText(-n);
      var s := "-" + digits;
      assert s[1..] == digits;
      assert s[0] == '-' && !IsDigit(s[0]);
      DigitsOfNat(-n);
      assert ParseInt(s) == Some(-(DigitsValue(digits) as int));
    } else {
      DigitsOfNat(n);
    }
  }

  /** Digits as `f"{n}"` writes them: at least one, and no leading zero unless the number is 0. */
  predicate CanonicalDigits(s: string) {
    |s| >= 1 && AllDigits(s) && (|s| > 1 ==> s[0] != '0')
  }

  /** Text `IntToText` can produce: canonical digits, or '-' before canonical digits other than "0". */
  predicate Canonical(s: string) {
    CanonicalDigits(s) || (|s| >= 2 && s[0] == '-' && CanonicalDigits(s[1..]) && s[1] != '0')
  }

  lemma {:induction false} LeadingDigitPositive(s: string)
    requires |s| >= 1 && AllDigits(s) && s[0] != '0'
    ensures DigitsValue(s) >= 1
  {
    if |s| > 1 {
      LeadingDigitPositive(s[..|s| - 1]);
    }
  }

  lemma {:induction false} NatToTextOfDigits(s: string)
    requires CanonicalDigits(s)
    ensures NatToText(DigitsValue(s)) == s
  {
    if |s| > 1 {
      var p := s[..|s| - 1];
      LeadingDigitPositive(p);
      NatToTextOfDigits(p);
      var v := DigitsValue(s);
      assert v / 10 == DigitsValue(p) && v % 10 == DigitValue(s[|s| - 1]);
      assert DigitChar(v % 10) == s[|s| - 1];
      assert s == p + [s[|s| - 1]];
    }
  }

  /** Reading canonical text and rendering the value gives the text back. */
  lemma ParseIntCanonical(s: string)
    requires Canonical(s)
    ensures ParseInt(s).Some? && IntToText(ParseInt(s).value) == s
  {
    if CanonicalDigits(s) {
      NatToTextOfDigits(s);
    } else {
      var digits := s[1..];
      assert !IsDigit(s[0]);
      LeadingDigitPositive(digits);
      NatToTextOfDigits(digits);
      assert ParseInt(s) == Some(-(DigitsValue(digits) as int));
      assert s == "-" + digits;
    }
  }

  lemma {:induction false} LeadingZeroValue(s: string)
    requires AllDigits(s)
    ensures AllDigits("0" + s) && DigitsValue("0" + s) == DigitsValue(s)
  {
    var z := "0" + s;
    assert forall i :: 1 <= i < |z| ==> z[i] == s[i - 1];
    if s != [] {
      assert z[..|z| - 1] == "0" + s[..|s| - 1];
      LeadingZeroValue(s[..|s| - 1]);
    }
  }

  /** A leading zero does not change the number read: "007" reads as "7". */
  lemma LeadingZeroIgnored(s: string)
    requires |s| >= 1 && AllDigits(s)
    ensures ParseInt("0" + s) == ParseInt(s)
  {
    LeadingZeroValue(s);
  }

  /** A leading '+' does not change the number read: "+5" reads as "5". */
  lemma PlusSignIgnored(s: string)
    requires |s| >= 1 && AllDigits(s)
    ensures ParseInt("+" + s) == ParseInt(s)
  {
    var t := "+" + s;
    assert t[1..] == s;
    assert !IsDigit(t[0]);
  }

  /** A leading '-' negates the number read: "-007" reads as minus "007". */
  lemma MinusSignNegates(s: string)
    requires |s| >= 1 && AllDigits(s)
    ensures ParseInt("-" + s) == Some(-ParseInt(s).value)
  {
    var t := "-" + s;
    assert t[1..] == s;
    assert !IsDigit(t[0]);
  }

  /** Position of the first comma in `s`, or `|s|` when there is none. */
  function IndexOfComma(s: string): (i: nat)
    ensures i <= |s|
    ensures forall j :: 0 <= j < i ==> s[j] != ','
    ensures i < |s| ==> s[i] == ','
  {
    if s == [] then 0 else if s[0] == ',' then 0 else 1 + IndexOfComma(s[1..])
  }

  /**
   * `s.split(',')`: the maximal comma-free pieces of `s`, in order; there is always
   * at least one piece (an empty string splits into one empty piece).
   */
  function Split(s: string): (parts: seq<string>)
    ensures |parts| >= 1
    ensures forall k :: 0 <= k < |parts| ==> ',' !in parts[k]
    decreases |s|
  {
    var i := IndexOfComma(s);
    if i == |s| then [s] else [s[..i]] + Split(s[i + 1..])
  }

  /** `','.join(parts)`. */
  function Join(parts: seq<string>): string
    requires |parts| >= 1
  {
    if |parts| == 1 then parts[0] else parts[0] + "," + Join(parts[1..])
  }

  /** Cutting `s` around a comma at `i` and gluing it back with a comma gives `s`. */
  lemma AroundComma(s: string, i: nat)
    requires i < |s| && s[i] == ','
    ensures s[..i] + "," + s[i + 1..] == s
  {
    assert s == s[..i] + [s[i]] + s[i + 1..];
  }

  /** Joining the pieces of a split gives back the original text. */
  lemma {:induction false} JoinSplit(s: string)
    ensures Join(Split(s)) == s
    decreases |s|
  {
    var i := IndexOfComma(s);
    if i < |s| {
      var parts, tail := Split(s), Split(s[i + 1..]);
      assert parts == [s[..i]] + tail;
      assert parts[0] == s[..i] && parts[1..] == tail && |parts| >= 2;
      calc {
        Join(parts);
        s[..i] + "," + Join(tail);
        { JoinSplit(s[i + 1..]); }
        s[..i] + "," + s[i + 1..];
        { AroundComma(s, i); }
        s;
      }
    } else {
      assert Split(s) == [s];
    }
  }

  /** The first comma of `p + "," + rest` is the one after `p` when `p` has none. */
  lemma FirstCommaAfter(p: string, rest: string)
    requires ',' !in p
    ensures IndexOfComma(p + "," + rest) == |p|
  {
    var s := p + "," + rest;
    assert forall j :: 0 <= j < |p| ==> s[j] == p[j];
    assert s[|p|] == ',';
  }

  /** A comma-free string has no first comma. */
  lemma NoComma(p: string)
    requires ',' !in p
    ensures IndexOfComma(p) == |p|
  {
    assert forall j :: 0 <= j < |p| ==> p[j] in p;
  }

  /** Splitting a join of comma-free pieces gives back the pieces. */
  lemma {:induction false} SplitJoin(parts: seq<string>)
    requires |parts| >= 1
    requires forall k :: 0 <= k < |parts| ==> ',' !in parts[k]
    ensures Split(Join(parts)) == parts
  {
    if |parts| == 1 {
      NoComma(parts[0]);
    } else {
      var p, rest := parts[0], Join(parts[1..]);
      var s := p + "," + rest;
      FirstCommaAfter(p, rest);
      assert s[|p| + 1..] == rest && s[..|p|] == p;
      SplitJoin(parts[1..]);
      assert Split(s) == [p] + Split(rest);
    }
  }
}
