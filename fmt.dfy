/**
 * The part of Rust's `{:?}` formatting the records rely on: `usize` in
 * decimal and `Option<usize>` as `None` or `Some(<decimal>)`, each with the
 * parser that reads it back. The escaping `{:?}` applies to strings is not
 * modelled; it is the parameter `DebugQuote`, of which only its shape is known.
 */
module Fmt {
  import opened Wrappers

  predicate IsDigit(c: char) {
    '0' <= c <= '9'
  }

  predicate AllDigits(s: string) {
    forall i :: 0 <= i < |s| ==> IsDigit(s[i])
  }

  function DigitChar(d: nat): (c: char)
    requires d < 10
    ensures IsDigit(c) && c as int - '0' as int == d
  {
    ('0' as int + d) as char
  }

  function DigitValue(c: char): nat
    requires IsDigit(c)
  {
    c as int - '0' as int
  }

  /** `{:?}` of an unsigned integer: its decimal digits, most significant first, no leading zero. */
  function Decimal(n: nat): (s: string)
    ensures 1 <= |s| && AllDigits(s)
    ensures n < 10 <==> |s| == 1
    ensures s[0] == '0' <==> n == 0
  {
    if n < 10 then [DigitChar(n)] else Decimal(n / 10) + [DigitChar(n % 10)]
  }

  /** The number a string of decimal digits denotes. */
  function DecimalValue(s: string): nat
    requires AllDigits(s)
  {
    if s == [] then 0 else DecimalValue(s[..|s| - 1]) * 10 + DigitValue(s[|s| - 1])
  }

  lemma {:induction false} DecimalRoundTrip(n: nat)
    ensures DecimalValue(Decimal(n)) == n
  {
    if n >= 10 {
      var s := Decimal(n);
      DecimalRoundTrip(n / 10);
      assert s[..|s| - 1] == Decimal(n / 10);
    }
  }

  /**
   * `{:?}` of an `Option<usize>`: `None`, or the number in decimal inside
   * `Some(` and `)`; either way it holds no comma.
   */
  function DebugOption(o: Option<nat>): (s: string)
    ensures o.None? <==> s == "None"
    ensures o.Some? ==> 7 <= |s| && s[..5] == "Some(" && s[|s| - 1] == ')'
    ensures forall i :: 0 <= i < |s| ==> s[i] != ','
  {
    match o
    case None => "None"
    case Some(n) =>
      var d := Decimal(n);
      var s := "Some(" + d + ")";
      assert forall i :: 5 <= i < 5 + |d| ==> s[i] == d[i - 5];
      s
  }

  /** Reads back what `DebugOption` writes; `None` for any other string. */
  function ParseDebugOption(s: string): Option<Option<nat>> {
    if s == "None" then Some(None)
    else if 7 <= |s| && s[..5] == "Some(" && s[|s| - 1] == ')' && AllDigits(s[5..|s| - 1]) then
      Some(Some(DecimalValue(s[5..|s| - 1])))
    else None
  }

  lemma DebugOptionRoundTrip(o: Option<nat>)
    ensures ParseDebugOption(DebugOption(o)) == Some(o)
  {
    if o.Some? {
      var d := Decimal(o.value);
      var s := DebugOption(o);
      assert s[..5] == "Some(";
      assert s[5..|s| - 1] == d;
      DecimalRoundTrip(o.value);
    }
  }

  /** Index of the first `c` in `s`, or `|s|` when `s` holds none. */
  function FirstIndexOf(s: string, c: char): (k: nat)
    ensures k <= |s|
    ensures k < |s| ==> s[k] == c
    ensures forall i :: 0 <= i < k ==> s[i] != c
  {
    if s == [] then 0 else if s[0] == c then 0 else 1 + FirstIndexOf(s[1..], c)
  }

  lemma {:induction false} FirstIndexOfAfter(a: string, b: string, c: char)
    requires forall i :: 0 <= i < |a| ==> a[i] != c
    requires 0 < |b| && b[0] == c
    ensures FirstIndexOf(a + b, c) == |a|
  {
    if a != [] {
      assert (a + b)[1..] == a[1..] + b;
      FirstIndexOfAfter(a[1..], b, c);
    }
  }

  /** `{:?}` of a `String`: the text quoted and escaped by the standard library. */
  type DebugQuote = string -> string

  /**
   * What is known of `{:?}` on strings: the output opens and closes with a
   * double quote and every character of the text becomes at least one character.
   */
  ghost predicate QuotesLikeDebug(q: DebugQuote) {
    forall s :: |q(s)| >= |s| + 2 && q(s)[0] == '"' && q(s)[|q(s)| - 1] == '"'
  }
}
