/**
 * Character and string helpers shared by the modules: ASCII case mapping,
 * the whitespace class of Python's `str`, decimal text of `str(n)` and
 * `str.join`.
 */
module Text {

  predicate IsAsciiUpper(c: char) { 'A' <= c <= 'Z' }
  predicate IsAsciiLower(c: char) { 'a' <= c <= 'z' }

  /** `c.upper()` restricted to ASCII letters; every other character is kept. */
  function Upper(c: char): (r: char)
    ensures IsAsciiLower(c) ==> IsAsciiUpper(r) && r as int == c as int - 32
    ensures !IsAsciiLower(c) ==> r == c
  {
    if IsAsciiLower(c) then (c as int - 32) as char else c
  }

  /** `c.lower()` restricted to ASCII letters; every other character is kept. */
  function Lower(c: char): (r: char)
    ensures IsAsciiUpper(c) ==> IsAsciiLower(r) && r as int == c as int + 32
    ensures !IsAsciiUpper(c) ==> r == c
  {
    if IsAsciiUpper(c) then (c as int + 32) as char else c
  }

  /** Python's `\s` / `str.isspace` on the ASCII range. */
  predicate IsSpace(c: char) {
    c == ' ' || 9 <= c as int <= 13 || 28 <= c as int <= 31
  }

  lemma CaseKeepsClass(c: char)
    ensures IsSpace(Upper(c)) == IsSpace(c) && IsSpace(Lower(c)) == IsSpace(c)
    ensures Upper(Lower(c)) == Upper(c) && Upper(Upper(c)) == Upper(c)
    ensures Lower(c) == c || IsAsciiUpper(c)
  {
  }

  /** ASCII case folding, as used for case-insensitive comparison. */
  function Fold(s: string): (r: string)
    ensures |r| == |s|
    ensures forall i :: 0 <= i < |s| ==> r[i] == Lower(s[i])
  {
    if s == [] then [] else [Lower(s[0])] + Fold(s[1..])
  }

  function Digit(d: nat): (c: char)
    requires d < 10
    ensures '0' <= c <= '9'
  {
    ['0', '1', '2', '3', '4', '5', '6', '7', '8', '9'][d]
  }

  /** `str(n)` for a non-negative integer. */
  function NatToString(n: nat): (r: string)
    ensures |r| >= 1
    ensures forall i :: 0 <= i < |r| ==> '0' <= r[i] <= '9'
  {
    if n < 10 then [Digit(n)] else NatToString(n / 10) + [Digit(n % 10)]
  }

  /** The leading decimal digit of `n`. */
  function LeadingDigit(n: nat): (d: nat)
    ensures d < 10
    ensures n > 0 ==> d > 0
  {
    if n < 10 then n else LeadingDigit(n / 10)
  }

  lemma {:induction false} NatToStringStartsWithLeadingDigit(n: nat)
    ensures NatToString(n)[0] == Digit(LeadingDigit(n))
  {
    if n >= 10 {
      NatToStringStartsWithLeadingDigit(n / 10);
    }
  }

  /** `d.join(xs)`. */
  function Join(xs: seq<string>, d: string): (r: string)
    ensures |xs| == 1 ==> r == xs[0]
    ensures xs == [] ==> r == ""
  {
    if |xs| == 0 then "" else if |xs| == 1 then xs[0] else xs[0] + d + Join(xs[1..], d)
  }

  /** Joining one more element appends the delimiter and that element. */
  lemma {:induction false} JoinSnoc(xs: seq<string>, x: string, d: string)
    requires xs != []
    ensures Join(xs + [x], d) == Join(xs, d) + d + x
  {
    if |xs| == 1 {
      assert (xs + [x])[1..] == [x];
    } else {
      assert (xs + [x])[1..] == xs[1..] + [x];
      JoinSnoc(xs[1..], x, d);
    }
  }

  function SumLengths(xs: seq<string>): nat {
    if xs == [] then 0 else |xs[0]| + SumLengths(xs[1..])
  }

  /** The joined text is the elements plus one delimiter between each neighbouring pair. */
  lemma {:induction false} JoinLength(xs: seq<string>, d: string)
    requires xs != []
    ensures |Join(xs, d)| == SumLengths(xs) + (|xs| - 1) * |d|
  {
    if |xs| > 1 {
      JoinLength(xs[1..], d);
    }
  }
}
