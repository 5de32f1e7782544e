/**
  Storage quantities such as "1Gi" or "500M", as the controller's helper
  `resourceMustParse` reads them: a parse whose error is discarded, so a
  size that does not parse becomes the zero quantity.

  Quantities are byte counts (`nat`). The grammar modelled here is a run of
  decimal digits followed by at most one decimal (k, M, G, T, P, E) or
  binary (Ki, Mi, Gi, Ti, Pi, Ei) suffix.
 */
module Quantity {

  predicate IsDigit(c: char) {
    '0' <= c <= '9'
  }

  predicate AllDigits(s: string) {
    forall i | 0 <= i < |s| :: IsDigit(s[i])
  }

  function DigitValue(c: char): (d: nat)
    requires IsDigit(c)
    ensures d < 10
  {
    c as int - '0' as int
  }

  function DigitChar(d: nat): (c: char)
    requires d < 10
    ensures IsDigit(c) && DigitValue(c) == d
  {
    ('0' as int + d) as char
  }

  /** The number a string of decimal digits denotes, most significant digit first. */
  function DecimalValue(s: string): nat
    requires AllDigits(s)
  {
    if s == [] then 0 else DecimalValue(s[..|s| - 1]) * 10 + DigitValue(s[|s| - 1])
  }

  /** The shortest decimal rendering of `n`. */
  function Decimal(n: nat): (s: string)
    ensures |s| > 0 && AllDigits(s)
    ensures n >= 10 <==> |s| > 1
  {
    if n < 10 then [DigitChar(n)] else Decimal(n / 10) + [DigitChar(n % 10)]
  }

  /** Length of the longest prefix of `s` made of digits. */
  function DigitRun(s: string): (n: nat)
    ensures n <= |s| && AllDigits(s[..n])
    ensures n < |s| ==> !IsDigit(s[n])
  {
    if s == [] || !IsDigit(s[0]) then 0 else 1 + DigitRun(s[1..])
  }

  predicate IsSuffix(s: string) {
    s in ["", "k", "M", "G", "T", "P", "E", "Ki", "Mi", "Gi", "Ti", "Pi", "Ei"]
  }

  /** The factor a suffix scales its number by. */
  function Multiplier(suffix: string): (m: nat)
    requires IsSuffix(suffix)
    ensures m >= 1
  {
    if suffix == "" then 1
    else if suffix == "k" then 1000
    else if suffix == "M" then 1000000
    else if suffix == "G" then 1000000000
    else if suffix == "T" then 1000000000000
    else if suffix == "P" then 1000000000000000
    else if suffix == "E" then 1000000000000000000
    else if suffix == "Ki" then 1024
    else if suffix == "Mi" then 1048576
    else if suffix == "Gi" then 1073741824
    else if suffix == "Ti" then 1099511627776
    else if suffix == "Pi" then 1125899906842624
    else 1152921504606846976
  }

  /** A size string the parser accepts: at least one digit, then a known suffix. */
  predicate WellFormed(size: string) {
    var n := DigitRun(size);
    n > 0 && IsSuffix(size[n..])
  }

  /**
    The controller's `resourceMustParse`: the quantity a size string denotes,
    and zero when the string does not parse (the parse error is dropped).
   */
  function ResourceMustParse(size: string): (q: nat)
    ensures !WellFormed(size) ==> q == 0
    ensures WellFormed(size) ==> (q == 0 <==> DecimalValue(size[..DigitRun(size)]) == 0)
  {
    var n := DigitRun(size);
    if n > 0 && IsSuffix(size[n..]) then DecimalValue(size[..n]) * Multiplier(size[n..]) else 0
  }

  /** The size string a user writes for `n` units of `suffix`. */
  function Format(n: nat, suffix: string): string
    requires IsSuffix(suffix)
  {
    Decimal(n) + suffix
  }

  lemma {:induction false} DecimalRoundTrip(n: nat)
    ensures DecimalValue(Decimal(n)) == n
  {
    if n >= 10 {
      var s := Decimal(n);
      assert s[..|s| - 1] == Decimal(n / 10);
      DecimalRoundTrip(n / 10);
    }
  }

  /** A digit run stops exactly where the digits end and a non-digit begins. */
  lemma {:induction false} DigitRunOfAppend(d: string, t: string)
    requires AllDigits(d)
    requires t == [] || !IsDigit(t[0])
    ensures DigitRun(d + t) == |d|
  {
    if d != [] {
      assert (d + t)[1..] == d[1..] + t;
      DigitRunOfAppend(d[1..], t);
    }
  }

  /** Parsing a formatted size gives back the number scaled by its suffix. */
  lemma {:induction false} ParseFormat(n: nat, suffix: string)
    requires IsSuffix(suffix)
    ensures ResourceMustParse(Format(n, suffix)) == n * Multiplier(suffix)
  {
    var d := Decimal(n);
    var s := Format(n, suffix);
    DigitRunOfAppend(d, suffix);
    assert s[..|d|] == d;
    assert s[|d|..] == suffix;
    DecimalRoundTrip(n);
  }

  /**
    A size that does not start with a digit, such as the empty size, parses
    to zero; a positive quantity comes only from leading digits followed by a
    known suffix.
   */
  lemma MalformedParsesToZero(size: string)
    ensures size == [] || !IsDigit(size[0]) ==> ResourceMustParse(size) == 0
    ensures ResourceMustParse(size) > 0 ==>
      |size| > 0 && IsDigit(size[0]) && IsSuffix(size[DigitRun(size)..])
  {
  }
}
