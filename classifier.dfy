/**
 The LAN/WAN address classifier of ip-helpers: the private-range test
 `internalIsLANAddress`, the APIPA prefix test, and the two public
 predicates `isLANAddress` and `isWANAddress`.

 The reference definitions are the address blocks themselves, written as
 ranges of 32-bit address values: the three private blocks of section 3 of
 RFC 1918 and the link-local block 169.254.0.0/16 of RFC 3927.
 */
module Classifier {
  import opened DottedQuad

  /** JavaScript's `b >> 4` on an octet: the value is a non-negative 32-bit
      integer, so the arithmetic shift is floor division by 16. */
  function ShiftRight4(b: Octet): int {
    b / 16
  }

  /** `(b1 >> 4) === 1` is the range test 16 <= b1 <= 31. */
  lemma HighNibbleIsOne(b: Octet)
    ensures ShiftRight4(b) == 1 <==> 16 <= b <= 31
  {
  }

  /** `internalIsLANAddress`: the raw private-range test on the first two octets. */
  predicate InternalIsLanAddress(address: string)
    requires IsDottedQuad(address)
  {
    var bytes := Octets(address);
    bytes[0] == 10 ||
    (bytes[0] == 172 && ShiftRight4(bytes[1]) == 1) ||
    (bytes[0] == 192 && bytes[1] == 168)
  }

  /** `apipaRegex.test(address)` for `/^169\.254\./`: a test on the text, not on the octets. */
  predicate IsApipa(address: string) {
    |address| >= 8 && address[..8] == "169.254."
  }

  /** `isLANAddress`. */
  predicate IsLanAddress(address: string)
    requires IsDottedQuad(address)
  {
    InternalIsLanAddress(address) && !IsApipa(address)
  }

  /** `isWANAddress`. */
  predicate IsWanAddress(address: string)
    requires IsDottedQuad(address)
  {
    !InternalIsLanAddress(address) && !IsApipa(address)
  }

  // ---------------------------------------------------------------------
  // Reference definitions: address blocks as ranges of 32-bit values.

  /** The 32-bit value of four octets, most significant first. */
  function ToUint32(q: seq<Octet>): (v: nat)
    requires |q| == 4
    ensures v < 0x1_0000_0000
  {
    ((q[0] as int * 256 + q[1]) * 256 + q[2]) * 256 + q[3]
  }

  /** Lexicographic order of two octet quadruples. */
  predicate LexLe(p: seq<Octet>, q: seq<Octet>)
    requires |p| == 4 && |q| == 4
  {
    p[0] < q[0] || (p[0] == q[0] &&
      (p[1] < q[1] || (p[1] == q[1] &&
        (p[2] < q[2] || (p[2] == q[2] && p[3] <= q[3])))))
  }

  /** The value of one base-`base` place followed by a lower digit is ordered
      by the higher digit first. */
  lemma PlaceValueOrder(hi1: nat, lo1: nat, hi2: nat, lo2: nat, base: nat)
    requires lo1 < base && lo2 < base
    ensures hi1 * base + lo1 <= hi2 * base + lo2 <==> hi1 < hi2 || (hi1 == hi2 && lo1 <= lo2)
  {
    if hi1 < hi2 {
      assert (hi1 + 1) * base <= hi2 * base by { MulMonotonic(hi1 + 1, hi2, base); }
    } else if hi2 < hi1 {
      assert (hi2 + 1) * base <= hi1 * base by { MulMonotonic(hi2 + 1, hi1, base); }
    }
  }

  lemma MulMonotonic(x: nat, y: nat, k: nat)
    requires x <= y
    ensures x * k <= y * k
  {
  }

  /** ToUint32 turns the lexicographic order of octets into the order of numbers. */
  lemma {:induction false} ToUint32Order(p: seq<Octet>, q: seq<Octet>)
    requires |p| == 4 && |q| == 4
    ensures ToUint32(p) <= ToUint32(q) <==> LexLe(p, q)
  {
    var p1: nat, q1: nat := p[0] as int * 256 + p[1], q[0] as int * 256 + q[1];
    var p2: nat, q2: nat := p1 * 256 + p[2], q1 * 256 + q[2];
    PlaceValueOrder(p[0], p[1], q[0], q[1], 256);
    PlaceValueOrder(q[0], q[1], p[0], p[1], 256);
    PlaceValueOrder(p1, p[2], q1, q[2], 256);
    PlaceValueOrder(q1, q[2], p1, p[2], 256);
    PlaceValueOrder(p2, p[3], q2, q[3], 256);
  }

  /** `v` lies in the block from `first` to `last`, both included. */
  predicate InBlock(v: nat, first: seq<Octet>, last: seq<Octet>)
    requires |first| == 4 && |last| == 4
  {
    ToUint32(first) <= v <= ToUint32(last)
  }

  /** The three private address blocks of section 3 of RFC 1918. */
  predicate IsRfc1918(v: nat) {
    InBlock(v, [10, 0, 0, 0], [10, 255, 255, 255]) ||
    InBlock(v, [172, 16, 0, 0], [172, 31, 255, 255]) ||
    InBlock(v, [192, 168, 0, 0], [192, 168, 255, 255])
  }

  /** The IPv4 link-local block 169.254.0.0/16 of RFC 3927 (APIPA). */
  predicate IsLinkLocal(v: nat) {
    InBlock(v, [169, 254, 0, 0], [169, 254, 255, 255])
  }

  /** An octet quadruple lies in a block that spans whole values of its first
      two octets exactly when those two octets are in range. */
  lemma InBlockByPrefix(q: seq<Octet>, b0: Octet, lo1: Octet, hi1: Octet)
    requires |q| == 4 && lo1 <= hi1
    ensures InBlock(ToUint32(q), [b0, lo1, 0, 0], [b0, hi1, 255, 255])
        <==> q[0] == b0 && lo1 <= q[1] <= hi1
  {
    ToUint32Order([b0, lo1, 0, 0], q);
    ToUint32Order(q, [b0, hi1, 255, 255]);
  }

  // ---------------------------------------------------------------------
  // Properties of the classifier.

  /** The raw test is the octet condition with the shift test read as a range. */
  lemma InternalIsLanByOctets(address: string)
    requires IsDottedQuad(address)
    ensures var b := Octets(address);
      InternalIsLanAddress(address) <==>
        b[0] == 10 || (b[0] == 172 && 16 <= b[1] <= 31) || (b[0] == 192 && b[1] == 168)
  {
    HighNibbleIsOne(Octets(address)[1]);
  }

  /** The raw test holds exactly for the addresses in the RFC 1918 private blocks. */
  lemma InternalIsLanIsRfc1918(address: string)
    requires IsDottedQuad(address)
    ensures InternalIsLanAddress(address) <==> IsRfc1918(ToUint32(Octets(address)))
  {
    var q := Octets(address);
    InternalIsLanByOctets(address);
    InBlockByPrefix(q, 10, 0, 255);
    InBlockByPrefix(q, 172, 16, 31);
    InBlockByPrefix(q, 192, 168, 168);
  }

  /** The two public predicates never hold together. */
  lemma LanWanExclusive(address: string)
    requires IsDottedQuad(address)
    ensures !(IsLanAddress(address) && IsWanAddress(address))
  {
  }

  /** An address whose text starts with `169.254.` is neither LAN nor WAN. */
  lemma ApipaIsNeither(address: string)
    requires IsDottedQuad(address)
    requires IsApipa(address)
    ensures !IsLanAddress(address) && !IsWanAddress(address)
  {
  }

  /** Every address outside the APIPA prefix is exactly one of LAN and WAN. */
  lemma NonApipaIsLanOrWan(address: string)
    requires IsDottedQuad(address)
    requires !IsApipa(address)
    ensures IsLanAddress(address) != IsWanAddress(address)
  {
  }

  /** Text that starts with `169.254.` has the octets 169 and 254 in front. */
  lemma {:induction false} ApipaPrefixOctets(address: string)
    requires IsDottedQuad(address)
    requires IsApipa(address)
    ensures Octets(address)[0] == 169 && Octets(address)[1] == 254
  {
    var rest := address[8..];
    assert address == "169" + "." + ("254" + "." + rest) by {
      assert address == address[..8] + rest;
    }
    SplitAtDot("169", "254" + "." + rest);
    SplitAtDot("254", rest);
    var parts := Split(address);
    assert parts[0] == "169" && parts[1] == "254";
    assert DecimalValue("169") == 169 by {
      assert "169"[..2] == "16" && "16"[..1] == "1" && "1"[..0] == "";
    }
    assert DecimalValue("254") == 254 by {
      assert "254"[..2] == "25" && "25"[..1] == "2" && "2"[..0] == "";
    }
  }

  /** The APIPA carve-out never removes a private address, so on well-formed
      input `isLANAddress` is the raw private-range test. */
  lemma LanIsInternalLan(address: string)
    requires IsDottedQuad(address)
    ensures IsLanAddress(address) == InternalIsLanAddress(address)
  {
    if IsApipa(address) {
      ApipaPrefixOctets(address);
    }
  }

  /** The canonical text of 169.254.c.d starts with `169.254.`. */
  lemma LinkLocalTextIsApipa(q: seq<Octet>)
    requires |q| == 4 && q[0] == 169 && q[1] == 254
    ensures IsApipa(Format(q))
  {
    var tail := Decimal(q[2]) + "." + Decimal(q[3]);
    assert Decimal(169) == "169" && Decimal(254) == "254";
    JoinFour(Decimal(169), Decimal(254), Decimal(q[2]), Decimal(q[3]));
    assert Format(q) == "169.254." + tail;
  }

  /** On canonical text the APIPA prefix test is the RFC 3927 link-local block. */
  lemma {:induction false} ApipaOfFormat(q: seq<Octet>)
    requires |q| == 4
    ensures IsDottedQuad(Format(q))
    ensures IsApipa(Format(q)) <==> q[0] == 169 && q[1] == 254
    ensures IsApipa(Format(q)) <==> IsLinkLocal(ToUint32(q))
  {
    FormatRoundTrip(q);
    InBlockByPrefix(q, 169, 254, 254);
    if IsApipa(Format(q)) {
      ApipaPrefixOctets(Format(q));
    }
    if q[0] == 169 && q[1] == 254 {
      LinkLocalTextIsApipa(q);
    }
  }

  /** The address a.b.c.d is LAN exactly when it is in an RFC 1918 block, and
      WAN exactly when it is in neither an RFC 1918 block nor the link-local block. */
  lemma ClassifyFormatted(q: seq<Octet>)
    requires |q| == 4
    ensures IsDottedQuad(Format(q))
    ensures IsLanAddress(Format(q)) <==> IsRfc1918(ToUint32(q))
    ensures IsWanAddress(Format(q)) <==> !IsRfc1918(ToUint32(q)) && !IsLinkLocal(ToUint32(q))
  {
    FormatRoundTrip(q);
    ApipaOfFormat(q);
    InternalIsLanIsRfc1918(Format(q));
    LanIsInternalLan(Format(q));
  }

  /** The same classification of a.b.c.d, stated on the octets. */
  lemma ClassifyFormattedByOctets(q: seq<Octet>)
    requires |q| == 4
    ensures IsDottedQuad(Format(q))
    ensures IsLanAddress(Format(q)) <==>
      q[0] == 10 || (q[0] == 172 && 16 <= q[1] <= 31) || (q[0] == 192 && q[1] == 168)
    ensures IsWanAddress(Format(q)) <==>
      !(q[0] == 10 || (q[0] == 172 && 16 <= q[1] <= 31) || (q[0] == 192 && q[1] == 168)) &&
      !(q[0] == 169 && q[1] == 254)
  {
    FormatRoundTrip(q);
    ApipaOfFormat(q);
    InternalIsLanByOctets(Format(q));
    LanIsInternalLan(Format(q));
  }
}
