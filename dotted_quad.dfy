/**
 The text form of an IPv4 address: `address.split('.')` followed by
 `Number(byte)` on every part, as the classifier does it, and the canonical
 dotted-quad rendering of four octets that the lemmas use to speak about
 "the address a.b.c.d".
 */
module DottedQuad {

  type Octet = n: nat | n < 256

  predicate IsDigit(c: char) {
    '0' <= c <= '9'
  }

  predicate AllDigits(s: string) {
    forall i | 0 <= i < |s| :: IsDigit(s[i])
  }

  function DigitValue(c: char): (d: nat)
    requires IsDigit(c)
    ensures d < 10
  {
    (c as int) - ('0' as int)
  }

  function DigitChar(d: nat): (c: char)
    requires d < 10
    ensures IsDigit(c) && DigitValue(c) == d
  {
    (('0' as int) + d) as char
  }

  /** The exact value of a string of decimal digits (leading zeros allowed).
      This is `Number(s)` for digit strings worth less than 2^53, which covers
      every octet text; `Number` rounds larger values to a double. */
  function DecimalValue(s: string): nat
    requires AllDigits(s)
    decreases |s|
  {
    if s == [] then 0 else DecimalValue(s[..|s| - 1]) * 10 + DigitValue(s[|s| - 1])
  }

  /** The shortest decimal rendering of `n`. */
  function Decimal(n: nat): (s: string)
    ensures |s| > 0 && AllDigits(s)
    decreases n
  {
    if n < 10 then [DigitChar(n)] else Decimal(n / 10) + [DigitChar(n % 10)]
  }

  lemma {:induction false} DecimalRoundTrip(n: nat)
    ensures DecimalValue(Decimal(n)) == n
  {
    if n >= 10 {
      var s := Decimal(n);
      assert s[..|s| - 1] == Decimal(n / 10);
      DecimalRoundTrip(n / 10);
    }
  }

  /** JavaScript's `s.split('.')`: the maximal dot-free pieces, empty ones included. */
  function Split(s: string): (parts: seq<string>)
    ensures |parts| >= 1
    decreases |s|
  {
    if s == [] then [""]
    else
      var rest := Split(s[1..]);
      if s[0] == '.' then [""] + rest else [[s[0]] + rest[0]] + rest[1..]
  }

  /** `parts.join('.')`, the inverse of Split. */
  function Join(parts: seq<string>): string
    requires |parts| >= 1
    decreases |parts|
  {
    if |parts| == 1 then parts[0] else parts[0] + "." + Join(parts[1..])
  }

  lemma {:induction false} JoinSplit(s: string)
    ensures Join(Split(s)) == s
    decreases |s|
  {
    if s != [] {
      JoinSplit(s[1..]);
      var rest := Split(s[1..]);
      if s[0] == '.' {
        assert Split(s)[1..] == rest;
      } else if |rest| == 1 {
        assert Split(s) == [[s[0]] + rest[0]];
      } else {
        assert Split(s)[1..] == rest[1..];
        assert Join(rest) == rest[0] + "." + Join(rest[1..]);
      }
    }
  }

  /** Splitting at the first dot of `p + "." + s` when `p` holds no dot. */
  lemma {:induction false} SplitAtDot(p: string, s: string)
    requires '.' !in p
    ensures Split(p + "." + s) == [p] + Split(s)
    decreases |p|
  {
    if p == [] {
      assert p + "." + s == ['.'] + s;
      assert (['.'] + s)[1..] == s;
    } else {
      var t := p + "." + s;
      assert t[0] == p[0] && t[1..] == p[1..] + "." + s;
      SplitAtDot(p[1..], s);
      assert [p[0]] + p[1..] == p;
    }
  }

  lemma {:induction false} SplitWithoutDot(p: string)
    requires '.' !in p
    ensures Split(p) == [p]
    decreases |p|
  {
    if p != [] {
      assert p[1..] + [] == p[1..];
      SplitWithoutDot(p[1..]);
      assert [p[0]] + p[1..] == p;
    }
  }

  lemma {:induction false} SplitJoin(parts: seq<string>)
    requires |parts| >= 1
    requires forall k | 0 <= k < |parts| :: '.' !in parts[k]
    ensures Split(Join(parts)) == parts
    decreases |parts|
  {
    if |parts| == 1 {
      SplitWithoutDot(parts[0]);
    } else {
      SplitJoin(parts[1..]);
      SplitAtDot(parts[0], Join(parts[1..]));
      assert [parts[0]] + parts[1..] == parts;
    }
  }

  lemma JoinFour(a: string, b: string, c: string, d: string)
    ensures Join([a, b, c, d]) == a + "." + b + "." + c + "." + d
  {
    assert [a, b, c, d][1..] == [b, c, d];
    assert [b, c, d][1..] == [c, d];
    assert [c, d][1..] == [d];
    assert Join([c, d]) == c + "." + d;
    assert Join([b, c, d]) == b + "." + (c + "." + d);
    assert Join([a, b, c, d]) == a + "." + (b + "." + (c + "." + d));
  }

  /** One part of a well-formed dotted quad: a non-empty digit string worth at most 255. */
  predicate IsOctetText(p: string) {
    |p| > 0 && AllDigits(p) && DecimalValue(p) < 256
  }

  /** What the operating system reports for an IPv4 address: four octet texts joined by dots. */
  predicate IsDottedQuad(address: string) {
    var parts := Split(address);
    |parts| == 4 && forall k | 0 <= k < 4 :: IsOctetText(parts[k])
  }

  /** `address.split('.').map(byte => Number(byte))` on a well-formed address. */
  function Octets(address: string): (q: seq<Octet>)
    requires IsDottedQuad(address)
    ensures |q| == 4
  {
    var parts := Split(address);
    var q: seq<Octet> := [DecimalValue(parts[0]), DecimalValue(parts[1]), DecimalValue(parts[2]), DecimalValue(parts[3])];
    q
  }

  /** The canonical text `a.b.c.d` of four octets. */
  function Format(q: seq<Octet>): string
    requires |q| == 4
  {
    Join([Decimal(q[0]), Decimal(q[1]), Decimal(q[2]), Decimal(q[3])])
  }

  lemma DigitsHaveNoDot(s: string)
    requires AllDigits(s)
    ensures '.' !in s
  {
  }

  /** Parsing the canonical text of four octets gives back those octets. */
  lemma FormatRoundTrip(q: seq<Octet>)
    requires |q| == 4
    ensures IsDottedQuad(Format(q))
    ensures Split(Format(q)) == [Decimal(q[0]), Decimal(q[1]), Decimal(q[2]), Decimal(q[3])]
    ensures Octets(Format(q)) == q
  {
    var parts := [Decimal(q[0]), Decimal(q[1]), Decimal(q[2]), Decimal(q[3])];
    forall k | 0 <= k < 4
      ensures '.' !in parts[k] && IsOctetText(parts[k]) && DecimalValue(parts[k]) == q[k]
    {
      DigitsHaveNoDot(parts[k]);
      DecimalRoundTrip(q[k]);
    }
    SplitJoin(parts);
  }
}
