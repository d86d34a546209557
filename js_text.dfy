/** String helpers shared by the formatters and the stream-name builder:
    first-occurrence splitting (String.prototype.split(c)[0] and the text after
    the first separator), decimal rendering and reading of naturals, and the
    ASCII part of String.prototype.toUpperCase. */
module JsText {

  predicate IsDigit(c: char) {
    '0' <= c <= '9'
  }

  predicate AllDigits(s: string) {
    forall i :: 0 <= i < |s| ==> IsDigit(s[i])
  }

  function DigitChar(d: nat): (c: char)
    requires d < 10
    ensures IsDigit(c) && c as int - '0' as int == d
  {
    ('0' as int + d) as char
  }

  /** The decimal text of a natural number, most significant digit first. */
  function NatToDecimal(n: nat): (r: string)
    ensures |r| >= 1 && AllDigits(r)
    ensures |r| > 1 ==> r[0] != '0'
    decreases n
  {
    if n < 10 then [DigitChar(n)] else NatToDecimal(n / 10) + [DigitChar(n % 10)]
  }

  /** The value of a string of decimal digits ("" reads as 0). */
  function DigitsValue(s: string): nat
    requires AllDigits(s)
  {
    if s == [] then 0 else DigitsValue(s[..|s| - 1]) * 10 + (s[|s| - 1] as int - '0' as int)
  }

  /** Reading back the decimal text of a number gives the number. */
  lemma {:induction false} DecimalRoundTrip(n: nat)
    ensures DigitsValue(NatToDecimal(n)) == n
  {
    if n >= 10 {
      DecimalRoundTrip(n / 10);
      var r := NatToDecimal(n);
      assert r[..|r| - 1] == NatToDecimal(n / 10);
    }
  }

  /** Everything before the first occurrence of `c` (all of `s` when `c` does not occur):
      the first element of `s.split(c)`. */
  function BeforeFirst(s: string, c: char): string {
    if s == [] then []
    else if s[0] == c then []
    else [s[0]] + BeforeFirst(s[1..], c)
  }

  /** Everything after the first occurrence of `c` ("" when `c` does not occur). */
  function AfterFirst(s: string, c: char): string {
    if s == [] then []
    else if s[0] == c then s[1..]
    else AfterFirst(s[1..], c)
  }

  /** The text before the first `c` is a prefix of `s` without `c`; it is shorter
      than `s` exactly when `c` occurs, and then `c` follows it, with the text
      after the first `c` as the rest. */
  lemma {:induction false} BeforeFirstSpec(s: string, c: char)
    ensures var r := BeforeFirst(s, c);
      |r| <= |s| && r == s[..|r|] && c !in r &&
      (|r| < |s| <==> c in s) &&
      (|r| < |s| ==> s[|r|] == c && AfterFirst(s, c) == s[|r| + 1..]) &&
      (|r| == |s| ==> AfterFirst(s, c) == [])
  {
    if s != [] && s[0] != c {
      BeforeFirstSpec(s[1..], c);
      assert s == [s[0]] + s[1..];
    }
  }

  /** Joining two pieces with a separator that the first piece does not contain
      and splitting at the first separator gives the two pieces back. */
  lemma {:induction false} SplitFirstOfJoin(a: string, c: char, b: string)
    requires c !in a
    ensures BeforeFirst(a + [c] + b, c) == a
    ensures AfterFirst(a + [c] + b, c) == b
  {
    if a != [] {
      SplitFirstOfJoin(a[1..], c, b);
      assert (a + [c] + b)[1..] == a[1..] + [c] + b;
    }
  }

  function UpperChar(c: char): char {
    if 'a' <= c <= 'z' then (c as int - 32) as char else c
  }

  /** ASCII upper-casing: letters a-z are mapped to A-Z, every other character is kept. */
  function ToUpper(s: string): (r: string)
    ensures |r| == |s|
    ensures forall i :: 0 <= i < |s| ==> r[i] == UpperChar(s[i])
  {
    if s == [] then [] else [UpperChar(s[0])] + ToUpper(s[1..])
  }

  /** Upper-casing adds no character that is not a letter or already present,
      in particular no separator. */
  lemma ToUpperKeepsOut(s: string, c: char)
    requires c !in s
    requires !('A' <= c <= 'Z')
    ensures c !in ToUpper(s)
  {
    var u := ToUpper(s);
    forall i | 0 <= i < |u| ensures u[i] != c {
      assert u[i] == UpperChar(s[i]);
    }
  }
}
