/** The colour value and the `#RRGGBB` codec of public/scripts/engine/color-utils.js. */
module ColorUtils {

  import opened Wrappers

  /** An RGBA colour. The defaults are those of the source's constructor; nothing clamps the components. */
  datatype Color = Color(r: real := 0.0, g: real := 0.0, b: real := 0.0, a: real := 1.0)
  {
    /** The components as the four-element vector handed to the shaders. */
    function AsVector(): seq<real>
    {
      [r, g, b, a]
    }
  }

  /** `new Color()` is opaque black, and `asVector` lists r, g, b, a in that order. */
  lemma ColorDefaults(c: Color)
    ensures Color() == Color(0.0, 0.0, 0.0, 1.0)
    ensures Color(c.r, c.g, c.b) == Color(c.r, c.g, c.b, 1.0)
    ensures |c.AsVector()| == 4
    ensures c.AsVector()[0] == c.r && c.AsVector()[1] == c.g && c.AsVector()[2] == c.b && c.AsVector()[3] == c.a
  {
  }

  // ---------------------------------------------------------------------------
  // Hexadecimal digits

  /** The class `[a-f\d]` of the pattern, matched case-insensitively. */
  predicate IsHexDigit(ch: char)
  {
    '0' <= ch <= '9' || 'a' <= ch <= 'f' || 'A' <= ch <= 'F'
  }

  predicate IsLowerHexDigit(ch: char)
  {
    '0' <= ch <= '9' || 'a' <= ch <= 'f'
  }

  predicate AllHex(s: string)
  {
    forall i :: 0 <= i < |s| ==> IsHexDigit(s[i])
  }

  predicate AllLowerHex(s: string)
  {
    forall i :: 0 <= i < |s| ==> IsLowerHexDigit(s[i])
  }

  function DigitValue(ch: char): (v: nat)
    requires IsHexDigit(ch)
    ensures v < 16
  {
    if '0' <= ch <= '9' then ch as int - '0' as int
    else if 'a' <= ch <= 'f' then ch as int - 'a' as int + 10
    else ch as int - 'A' as int + 10
  }

  /** The digit `Number.prototype.toString(16)` writes for a value below 16. */
  function LowerDigit(v: nat): (ch: char)
    requires v < 16
    ensures IsLowerHexDigit(ch) && DigitValue(ch) == v
  {
    if v < 10 then ('0' as int + v) as char else ('a' as int + v - 10) as char
  }

  function ToLowerDigit(ch: char): (l: char)
    requires IsHexDigit(ch)
    ensures IsLowerHexDigit(l) && DigitValue(l) == DigitValue(ch)
    ensures IsLowerHexDigit(ch) ==> l == ch
  {
    if 'A' <= ch <= 'F' then (ch as int - 'A' as int + 'a' as int) as char else ch
  }

  /** `parseInt(s, 16)` on a non-empty string of hex digits, read most significant digit first. */
  function HexValue(s: string): nat
    requires AllHex(s)
  {
    if s == [] then 0 else 16 * HexValue(s[..|s| - 1]) + DigitValue(s[|s| - 1])
  }

  /** `parseInt` of a two-digit pair. */
  function PairValue(hi: char, lo: char): (v: nat)
    requires IsHexDigit(hi) && IsHexDigit(lo)
    ensures v < 256
  {
    16 * DigitValue(hi) + DigitValue(lo)
  }

  lemma HexValuePair(s: string)
    requires |s| == 2 && AllHex(s)
    ensures HexValue(s) == PairValue(s[0], s[1])
  {
    var t := s[..1];
    assert t[..0] == [] && t[0] == s[0];
    assert HexValue(t) == DigitValue(s[0]);
  }

  /** Writing a value's digits back in lower case is the same as lower-casing the digits. */
  lemma LowerDigitOfValue(ch: char)
    requires IsHexDigit(ch)
    ensures LowerDigit(DigitValue(ch)) == ToLowerDigit(ch)
  {
  }

  // ---------------------------------------------------------------------------
  // hexToColor

  /** The pattern `^#?([a-f\d]{2})([a-f\d]{2})([a-f\d]{2})$` with the `i` flag. */
  predicate MatchesHexPattern(hex: string)
  {
    || (|hex| == 6 && AllHex(hex))
    || (|hex| == 7 && hex[0] == '#' && AllHex(hex[1..]))
  }

  /** The three captured digit pairs, when the pattern matches; JavaScript's `\d` is ASCII only. */
  function CapturedDigits(hex: string): Option<string>
  {
    var digits := if |hex| > 0 && hex[0] == '#' then hex[1..] else hex;
    if |digits| == 6 && AllHex(digits) then Some(digits) else None
  }

  /**
    * `hexToColor`. On a string the pattern rejects, the source indexes a null match and
    * throws; here that is `None`.
    */
  function HexToColor(hex: string): (c: Option<Color>)
    ensures c.Some? <==> MatchesHexPattern(hex)
  {
    match CapturedDigits(hex)
    case None => None
    case Some(d) =>
      Some(Color(PairValue(d[0], d[1]) as real / 255.0,
                 PairValue(d[2], d[3]) as real / 255.0,
                 PairValue(d[4], d[5]) as real / 255.0))
  }

  /** A parsed colour is opaque and its channels are the last three digit pairs over 255, inside [0, 1]. */
  lemma HexToColorChannels(hex: string)
    requires HexToColor(hex).Some?
    ensures |hex| >= 6 && AllHex(hex[|hex| - 6..])
    ensures var c := HexToColor(hex).value; var n := |hex|;
      && c.r == PairValue(hex[n - 6], hex[n - 5]) as real / 255.0
      && c.g == PairValue(hex[n - 4], hex[n - 3]) as real / 255.0
      && c.b == PairValue(hex[n - 2], hex[n - 1]) as real / 255.0
      && c.a == 1.0
    ensures var c := HexToColor(hex).value;
      && 0.0 <= c.r <= 1.0 && 0.0 <= c.g <= 1.0 && 0.0 <= c.b <= 1.0
  {
    var d := CapturedDigits(hex).value;
    assert d == hex[|hex| - 6..];
  }

  /** The leading `#` is optional: with or without it the same six digits give the same colour. */
  lemma HashIsOptional(digits: string)
    requires |digits| == 6
    ensures HexToColor("#" + digits) == HexToColor(digits)
  {
    var h := "#" + digits;
    assert h[1..] == digits;
    assert h[|h| - 6..] == digits[|digits| - 6..];
  }

  // ---------------------------------------------------------------------------
  // componentToHex and colorToHex

  /** `n.toString(16)` for a natural number: lower-case digits, no leading zeros. */
  function NatToHex(n: nat): string
    decreases n
  {
    if n < 16 then [LowerDigit(n)] else NatToHex(n / 16) + [LowerDigit(n % 16)]
  }

  /** `c.toString(16)` for an integer: a minus sign in front of a negative number's digits. */
  function IntToHex(c: int): string
  {
    if c < 0 then "-" + NatToHex(-c) else NatToHex(c)
  }

  /** `toString(16)` writes lower-case digits that read back as the number, one digit exactly below 16. */
  lemma {:induction false} NatToHexCorrect(n: nat)
    ensures AllLowerHex(NatToHex(n)) && AllHex(NatToHex(n))
    ensures HexValue(NatToHex(n)) == n
    ensures |NatToHex(n)| >= 1
    ensures |NatToHex(n)| == 1 <==> n < 16
    ensures n < 256 ==> |NatToHex(n)| <= 2
    ensures n >= 256 ==> |NatToHex(n)| >= 3
    decreases n
  {
    var s := NatToHex(n);
    if n >= 16 {
      NatToHexCorrect(n / 16);
      var t := NatToHex(n / 16);
      assert s == t + [LowerDigit(n % 16)];
      assert s[..|s| - 1] == t;
      assert HexValue(s) == 16 * HexValue(t) + DigitValue(LowerDigit(n % 16));
    }
  }

  /** `componentToHex`: `toString(16)`, left-padded with one `0` when that gave a single character. */
  function ComponentToHex(c: int): (s: string)
    ensures 0 <= c < 256 ==> s == [LowerDigit(c / 16), LowerDigit(c % 16)]
    ensures 0 <= c < 256 ==> PairValue(s[0], s[1]) == c
  {
    var hex := IntToHex(c);
    assert 0 <= c < 256 ==> hex == if c < 16 then [LowerDigit(c)] else [LowerDigit(c / 16), LowerDigit(c % 16)] by {
      if 16 <= c < 256 {
        assert NatToHex(c / 16) == [LowerDigit(c / 16)];
      }
    }
    if |hex| == 1 then "0" + hex else hex
  }

  /** Outside 0..255 nothing is padded: a minus sign or three or more digits are left as written. */
  lemma ComponentToHexUnpadded(c: int)
    ensures c >= 0 ==> AllLowerHex(ComponentToHex(c)) && HexValue(ComponentToHex(c)) == c
    ensures c < 0 ==> ComponentToHex(c) == "-" + NatToHex(-c)
    ensures c >= 256 ==> ComponentToHex(c) == NatToHex(c) && |ComponentToHex(c)| >= 3
  {
    if c >= 0 {
      NatToHexCorrect(c);
      var hex := NatToHex(c);
      if |hex| == 1 {
        assert ("0" + hex)[..1] == "0";
      }
    }
  }

  /** `colorToHex`: `#` and the three channels, each written by `componentToHex`. */
  function ColorToHex(r: int, g: int, b: int): (s: string)
    ensures 0 <= r < 256 && 0 <= g < 256 && 0 <= b < 256 ==>
      s == ['#', LowerDigit(r / 16), LowerDigit(r % 16), LowerDigit(g / 16),
            LowerDigit(g % 16), LowerDigit(b / 16), LowerDigit(b % 16)]
  {
    "#" + ComponentToHex(r) + ComponentToHex(g) + ComponentToHex(b)
  }

  /** For byte channels the string is `#` and six lower-case digits that read back, pair by pair, as r, g, b. */
  lemma ColorToHexBytes(r: int, g: int, b: int)
    requires 0 <= r < 256 && 0 <= g < 256 && 0 <= b < 256
    ensures var s := ColorToHex(r, g, b);
      && |s| == 7 && s[0] == '#' && AllLowerHex(s[1..]) && MatchesHexPattern(s)
      && PairValue(s[1], s[2]) == r && PairValue(s[3], s[4]) == g && PairValue(s[5], s[6]) == b
  {
    var s := ColorToHex(r, g, b);
    assert AllLowerHex(s[1..]) && AllHex(s[1..]);
  }

  /** Worked examples of `componentToHex` and `colorToHex`. */
  lemma HexExamples()
    ensures ComponentToHex(5) == "05"
    ensures ComponentToHex(255) == "ff"
    ensures ColorToHex(0, 0, 0) == "#000000"
    ensures ColorToHex(255, 255, 255) == "#ffffff"
  {
  }

  // ---------------------------------------------------------------------------
  // Round trips

  /** Integer channels written by `colorToHex` read back by `hexToColor` as channel/255, alpha 1. */
  lemma HexRoundTrip(r: int, g: int, b: int)
    requires 0 <= r < 256 && 0 <= g < 256 && 0 <= b < 256
    ensures HexToColor(ColorToHex(r, g, b))
         == Some(Color(r as real / 255.0, g as real / 255.0, b as real / 255.0, 1.0))
  {
    ColorToHexBytes(r, g, b);
  }

  /** A channel value scaled back to 0..255, as a caller of `colorToHex` does. */
  function Channel255(x: real): int
  {
    (x * 255.0).Floor
  }

  /** The byte a channel read from a pair scales back to. */
  lemma PairChannel(hi: char, lo: char)
    requires IsHexDigit(hi) && IsHexDigit(lo)
    ensures Channel255(PairValue(hi, lo) as real / 255.0) == PairValue(hi, lo)
  {
    var v := PairValue(hi, lo);
    assert (v as real / 255.0) * 255.0 == v as real;
  }

  /** The digits `componentToHex` writes for a pair's value are the pair, lower-cased. */
  lemma PairDigits(hi: char, lo: char)
    requires IsHexDigit(hi) && IsHexDigit(lo)
    ensures LowerDigit(PairValue(hi, lo) / 16) == ToLowerDigit(hi)
    ensures LowerDigit(PairValue(hi, lo) % 16) == ToLowerDigit(lo)
  {
    var v := PairValue(hi, lo);
    assert v / 16 == DigitValue(hi) && v % 16 == DigitValue(lo);
    LowerDigitOfValue(hi);
    LowerDigitOfValue(lo);
  }

  /** `colorToHex` of three pair values writes the six digits back, lower-cased. */
  lemma ColorToHexOfPairs(d0: char, d1: char, d2: char, d3: char, d4: char, d5: char)
    requires IsHexDigit(d0) && IsHexDigit(d1) && IsHexDigit(d2) && IsHexDigit(d3) && IsHexDigit(d4) && IsHexDigit(d5)
    ensures ColorToHex(PairValue(d0, d1), PairValue(d2, d3), PairValue(d4, d5))
         == ['#', ToLowerDigit(d0), ToLowerDigit(d1), ToLowerDigit(d2), ToLowerDigit(d3), ToLowerDigit(d4), ToLowerDigit(d5)]
  {
    PairDigits(d0, d1);
    PairDigits(d2, d3);
    PairDigits(d4, d5);
  }

  /** Scaling the channels of a parsed colour by 255 gives back the three pair values. */
  lemma ParsedChannels(hex: string)
    requires MatchesHexPattern(hex)
    ensures HexToColor(hex).Some?
    ensures var c := HexToColor(hex).value; var n := |hex|;
      && AllHex(hex[n - 6..])
      && Channel255(c.r) == PairValue(hex[n - 6], hex[n - 5])
      && Channel255(c.g) == PairValue(hex[n - 4], hex[n - 3])
      && Channel255(c.b) == PairValue(hex[n - 2], hex[n - 1])
  {
    var n := |hex|;
    assert AllHex(hex[n - 6..]);
    assert IsHexDigit(hex[n - 6]) && IsHexDigit(hex[n - 5]) && IsHexDigit(hex[n - 4]);
    assert IsHexDigit(hex[n - 3]) && IsHexDigit(hex[n - 2]) && IsHexDigit(hex[n - 1]);
    PairChannel(hex[n - 6], hex[n - 5]);
    PairChannel(hex[n - 4], hex[n - 3]);
    PairChannel(hex[n - 2], hex[n - 1]);
  }

  /**
    * A colour read by `hexToColor` and written back by `colorToHex` (channels scaled by 255)
    * gives `#` followed by the string's six digits in lower case.
    */
  lemma ColorRoundTrip(hex: string)
    requires MatchesHexPattern(hex)
    ensures HexToColor(hex).Some?
    ensures var c := HexToColor(hex).value; var n := |hex|;
      && AllHex(hex[n - 6..])
      && ColorToHex(Channel255(c.r), Channel255(c.g), Channel255(c.b))
         == ['#', ToLowerDigit(hex[n - 6]), ToLowerDigit(hex[n - 5]), ToLowerDigit(hex[n - 4]),
                  ToLowerDigit(hex[n - 3]), ToLowerDigit(hex[n - 2]), ToLowerDigit(hex[n - 1])]
  {
    var n := |hex|;
    ParsedChannels(hex);
    var d0, d1, d2, d3, d4, d5 := hex[n - 6], hex[n - 5], hex[n - 4], hex[n - 3], hex[n - 2], hex[n - 1];
    assert IsHexDigit(d0) && IsHexDigit(d1) && IsHexDigit(d2) && IsHexDigit(d3) && IsHexDigit(d4) && IsHexDigit(d5) by {
      assert AllHex(hex[n - 6..]);
    }
    ColorToHexOfPairs(d0, d1, d2, d3, d4, d5);
  }
}
