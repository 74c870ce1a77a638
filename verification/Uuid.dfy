/** Random identifiers: the canonical text of version 4 UUIDs (sections 4 and 5.4 of RFC 9562). */
module Uuid {
  type Byte = b: int | 0 <= b < 256

  function HexDigit(n: nat): char
    requires n < 16
  {
    if n < 10 then '0' + n as char else 'a' + (n - 10) as char
  }

  /** The value of a hexadecimal digit in either case, or 16 when the character is not one. */
  function HexValue(c: char): nat {
    if '0' <= c <= '9' then c as int - '0' as int
    else if 'a' <= c <= 'f' then c as int - 'a' as int + 10
    else if 'A' <= c <= 'F' then c as int - 'A' as int + 10
    else 16
  }

  function HexText(b: seq<Byte>): string {
    if b == [] then "" else [HexDigit(b[0] / 16), HexDigit(b[0] % 16)] + HexText(b[1..])
  }

  /** Decodes pairs of digits; `ok` is false for an odd length or a character that is no digit. */
  function DecodeHex(s: string): (r: (bool, seq<Byte>)) {
    if |s| == 0 then (true, [])
    else if |s| == 1 || HexValue(s[0]) == 16 || HexValue(s[1]) == 16 then (false, [])
    else
      var rest := DecodeHex(s[2..]);
      (rest.0, [HexValue(s[0]) * 16 + HexValue(s[1])] + rest.1)
  }

  function StripDashes(s: string): string {
    if |s| == 0 then [] else if s[0] == '-' then StripDashes(s[1..]) else [s[0]] + StripDashes(s[1..])
  }

  /** Unchanged by lower-casing. */
  predicate Lower(s: string) { forall i :: 0 <= i < |s| ==> !('A' <= s[i] <= 'Z') }

  predicate ValidID(s: string) {
    && |s| == 36 && Lower(s)
    && s[8] == '-' && s[13] == '-' && s[18] == '-' && s[23] == '-'
    && var d := DecodeHex(StripDashes(s));
       d.0 && |d.1| == 16 && d.1[6] / 16 == 4 && d.1[8] / 64 == 2
  }

  /** The version nibble is 4 and the two variant bits are 10. */
  predicate Version4(b: seq<Byte>) { |b| == 16 && b[6] / 16 == 4 && b[8] / 64 == 2 }

  function CanonicalText(b: seq<Byte>): string
    requires |b| == 16
  {
    Dashed(HexText(b[..4]), HexText(b[4..6]), HexText(b[6..8]), HexText(b[8..10]), HexText(b[10..]))
  }

  function Dashed(g0: string, g1: string, g2: string, g3: string, g4: string): string {
    g0 + ['-'] + g1 + ['-'] + g2 + ['-'] + g3 + ['-'] + g4
  }

  // Digits and their text.

  predicate LowerHex(s: string) { forall i :: 0 <= i < |s| ==> HexValue(s[i]) < 16 && !('A' <= s[i] <= 'Z') }

  lemma DigitValue(n: nat)
    requires n < 16
    ensures HexValue(HexDigit(n)) == n && !('A' <= HexDigit(n) <= 'Z')
  {
  }

  lemma DigitText(c: char)
    requires HexValue(c) < 16 && !('A' <= c <= 'Z')
    ensures HexDigit(HexValue(c)) == c
  {
  }

  lemma {:induction false} HexTextDecodes(b: seq<Byte>)
    ensures |HexText(b)| == 2 * |b| && LowerHex(HexText(b)) && DecodeHex(HexText(b)) == (true, b)
  {
    if b != [] {
      HexTextDecodes(b[1..]);
      var t, rest := HexText(b), HexText(b[1..]);
      assert t[2..] == rest;
      DigitValue(b[0] / 16);
      DigitValue(b[0] % 16);
      forall i | 0 <= i < |t| ensures HexValue(t[i]) < 16 && !('A' <= t[i] <= 'Z') {
        if 2 <= i { assert t[i] == rest[i - 2]; }
      }
      assert b == [b[0]] + b[1..];
    }
  }

  lemma {:induction false} DecodeHexPrints(s: string)
    requires LowerHex(s) && |s| % 2 == 0
    ensures DecodeHex(s).0 && |s| == 2 * |DecodeHex(s).1| && HexText(DecodeHex(s).1) == s
  {
    if |s| > 1 {
      DecodeHexPrints(s[2..]);
      DigitText(s[0]);
      DigitText(s[1]);
      var v := HexValue(s[0]) * 16 + HexValue(s[1]);
      assert v / 16 == HexValue(s[0]) && v % 16 == HexValue(s[1]);
      var d := DecodeHex(s).1;
      assert d[0] == v && d[1..] == DecodeHex(s[2..]).1;
      assert s == [s[0], s[1]] + s[2..];
    }
  }

  lemma {:induction false} DecodedAreDigits(s: string)
    requires DecodeHex(s).0
    ensures |s| == 2 * |DecodeHex(s).1| && forall i :: 0 <= i < |s| ==> HexValue(s[i]) < 16
  {
    if |s| > 1 { DecodedAreDigits(s[2..]); assert s == s[..2] + s[2..]; }
  }

  lemma {:induction false} HexTextConcat(a: seq<Byte>, b: seq<Byte>)
    ensures HexText(a + b) == HexText(a) + HexText(b)
  {
    if a == [] { assert a + b == b; } else {
      HexTextConcat(a[1..], b);
      assert (a + b)[1..] == a[1..] + b;
    }
  }

  // Dashes: stripping loses one character per dash, so 32 surviving digits leave no dash elsewhere.

  lemma {:induction false} StripConcat(a: string, b: string)
    ensures StripDashes(a + b) == StripDashes(a) + StripDashes(b)
  {
    if a == "" {
      assert a + b == b;
    } else {
      StripConcat(a[1..], b);
      var t := a + b;
      assert t[0] == a[0] && t[1..] == a[1..] + b;
    }
  }

  lemma {:induction false} StripShortens(s: string)
    ensures |StripDashes(s)| <= |s|
    ensures '-' !in StripDashes(s)
    ensures |StripDashes(s)| == |s| ==> StripDashes(s) == s
  {
    if s != "" { StripShortens(s[1..]); assert s == [s[0]] + s[1..]; }
  }

  /** A dash between two texts strips away. */
  lemma StripDash(a: string, b: string)
    ensures StripDashes(a + ['-'] + b) == StripDashes(a) + StripDashes(b)
  {
    assert StripDashes(['-']) == [];
    StripConcat(a, ['-']);
    StripConcat(a + ['-'], b);
  }

  lemma StripGroups(g0: string, g1: string, g2: string, g3: string, g4: string)
    ensures StripDashes(Dashed(g0, g1, g2, g3, g4))
         == StripDashes(g0) + StripDashes(g1) + StripDashes(g2) + StripDashes(g3) + StripDashes(g4)
  {
    var t1 := g0 + ['-'] + g1;
    var t2 := t1 + ['-'] + g2;
    var t3 := t2 + ['-'] + g3;
    StripDash(g0, g1);
    StripDash(t1, g2);
    StripDash(t2, g3);
    StripDash(t3, g4);
  }

  /** A text of the canonical shape is its five groups joined by dashes. */
  lemma Grouped(s: string)
    requires |s| == 36 && s[8] == '-' && s[13] == '-' && s[18] == '-' && s[23] == '-'
    ensures s == Dashed(s[..8], s[9..13], s[14..18], s[19..23], s[24..])
  {
  }

  lemma DashedShape(g0: string, g1: string, g2: string, g3: string, g4: string)
    requires |g0| == 8 && |g1| == 4 && |g2| == 4 && |g3| == 4 && |g4| == 12
    requires LowerHex(g0) && LowerHex(g1) && LowerHex(g2) && LowerHex(g3) && LowerHex(g4)
    ensures var s := Dashed(g0, g1, g2, g3, g4);
      |s| == 36 && Lower(s) && s[8] == '-' && s[13] == '-' && s[18] == '-' && s[23] == '-'
  {
  }

  /** Sixteen bytes print as the concatenation of their groups. */
  lemma HexTextGroups(b: seq<Byte>)
    requires |b| == 16
    ensures HexText(b) == HexText(b[..4]) + HexText(b[4..6]) + HexText(b[6..8]) + HexText(b[8..10]) + HexText(b[10..])
  {
    HexTextConcat(b[..4], b[4..6]);
    assert b[..4] + b[4..6] == b[..6];
    HexTextConcat(b[..6], b[6..8]);
    assert b[..6] + b[6..8] == b[..8];
    HexTextConcat(b[..8], b[8..10]);
    assert b[..8] + b[8..10] == b[..10];
    HexTextConcat(b[..10], b[10..]);
    assert b[..10] + b[10..] == b;
  }

  lemma {:induction false} StripLowerHex(s: string)
    requires LowerHex(s)
    ensures StripDashes(s) == s
  {
    if |s| > 0 {
      StripLowerHex(s[1..]);
      assert s == [s[0]] + s[1..];
    }
  }

  /** Printing sixteen bytes and decoding the stripped text gives them back. */
  lemma CanonicalDecodes(b: seq<Byte>)
    requires |b| == 16
    ensures var s := CanonicalText(b);
      |s| == 36 && Lower(s) && s[8] == '-' && s[13] == '-' && s[18] == '-' && s[23] == '-'
    ensures DecodeHex(StripDashes(CanonicalText(b))) == (true, b)
  {
    var g0, g1, g2, g3, g4 := HexText(b[..4]), HexText(b[4..6]), HexText(b[6..8]), HexText(b[8..10]), HexText(b[10..]);
    HexTextDecodes(b[..4]); HexTextDecodes(b[4..6]); HexTextDecodes(b[6..8]); HexTextDecodes(b[8..10]);
      HexTextDecodes(b[10..]);
    DashedShape(g0, g1, g2, g3, g4);
    StripLowerHex(g0); StripLowerHex(g1); StripLowerHex(g2); StripLowerHex(g3); StripLowerHex(g4);
    StripGroups(g0, g1, g2, g3, g4);
    HexTextGroups(b);
    HexTextDecodes(b);
  }

  lemma LowerSlices(s: string)
    requires |s| == 36 && Lower(s)
    ensures Lower(s[..8] + s[9..13] + s[14..18] + s[19..23] + s[24..])
  {
    assert Lower(s[..8]) && Lower(s[9..13]) && Lower(s[14..18]) && Lower(s[19..23]) && Lower(s[24..]);
  }

  /** Five groups around four dashes that strip to 32 hexadecimal digits are themselves digits. */
  lemma GroupsAreDigits(s: string)
    requires ValidID(s)
    ensures StripDashes(s) == s[..8] + s[9..13] + s[14..18] + s[19..23] + s[24..]
    ensures LowerHex(StripDashes(s))
  {
    var g0, g1, g2, g3, g4 := s[..8], s[9..13], s[14..18], s[19..23], s[24..];
    Grouped(s);
    StripGroups(g0, g1, g2, g3, g4);
    DecodedAreDigits(StripDashes(s));
    StripShortens(g0); StripShortens(g1); StripShortens(g2); StripShortens(g3); StripShortens(g4);
    LowerSlices(s);
  }

  /** Two splits of a text at the same points have the same groups. */
  lemma SameGroups(a0: string, a1: string, a2: string, a3: string, a4: string,
                   b0: string, b1: string, b2: string, b3: string, b4: string)
    requires |a0| == |b0| && |a1| == |b1| && |a2| == |b2| && |a3| == |b3|
    requires a0 + a1 + a2 + a3 + a4 == b0 + b1 + b2 + b3 + b4
    ensures a0 == b0 && a1 == b1 && a2 == b2 && a3 == b3 && a4 == b4
  {
    SplitEqual(a0 + a1 + a2 + a3, a4, b0 + b1 + b2 + b3, b4);
    SplitEqual(a0 + a1 + a2, a3, b0 + b1 + b2, b3);
    SplitEqual(a0 + a1, a2, b0 + b1, b2);
    SplitEqual(a0, a1, b0, b1);
  }

  lemma SplitEqual(a: string, x: string, b: string, y: string)
    requires |a| == |b| && a + x == b + y
    ensures a == b && x == y
  {
    assert (a + x)[..|a|] == a && (b + y)[..|b|] == b;
    assert (a + x)[|a|..] == x && (b + y)[|b|..] == y;
  }

  lemma ValidIsCanonical(s: string)
    requires ValidID(s)
    ensures var b := DecodeHex(StripDashes(s)).1; Version4(b) && CanonicalText(b) == s
  {
    GroupsAreDigits(s);
    DecodeHexPrints(StripDashes(s));
    var b := DecodeHex(StripDashes(s)).1;
    HexTextGroups(b);
    HexTextDecodes(b[..4]); HexTextDecodes(b[4..6]); HexTextDecodes(b[6..8]); HexTextDecodes(b[8..10]);
      HexTextDecodes(b[10..]);
    SameGroups(s[..8], s[9..13], s[14..18], s[19..23], s[24..],
               HexText(b[..4]), HexText(b[4..6]), HexText(b[6..8]), HexText(b[8..10]), HexText(b[10..]));
    Grouped(s);
  }

  /** An identifier is valid exactly when it is the canonical text of a version 4 UUID, and the
      decoded bytes are the only ones with that text. */
  lemma ValidIffCanonical(s: string)
    ensures ValidID(s) <==> exists b: seq<Byte> :: Version4(b) && CanonicalText(b) == s
    ensures forall b: seq<Byte> :: Version4(b) && CanonicalText(b) == s ==> DecodeHex(StripDashes(s)) == (true, b)
  {
    forall b: seq<Byte> | Version4(b) && CanonicalText(b) == s
      ensures ValidID(s) && DecodeHex(StripDashes(s)) == (true, b)
    {
      CanonicalDecodes(b);
    }
    if ValidID(s) {
      ValidIsCanonical(s);
    }
  }

  lemma NonEmpty(s: string)
    requires ValidID(s)
    ensures s != ""
  {
  }

  /** Sixteen random bytes with the version and variant bits forced, printed canonically. */
  method NewID(random: array<Byte>) returns (id: string)
    requires random.Length == 16
    modifies random
    ensures ValidID(id)
    ensures DecodeHex(StripDashes(id)) == (true, random[..])
    ensures random[..] == old(random[..])[6 := old(random[6]) % 16 + 64][8 := old(random[8]) % 64 + 128]
  {
    random[6] := random[6] % 16 + 64;
    random[8] := random[8] % 64 + 128;
    assert Version4(random[..]);
    id := CanonicalText(random[..]);
    ValidIffCanonical(id);
    CanonicalDecodes(random[..]);
  }
}
