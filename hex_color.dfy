/**
 * The colour strings of the `-fg` and `-bg` options and the RGBA values they
 * decode to (`convertColorStringToStruct` in main.go).
 */
module HexColor {
  import opened GoBytes

  /** Go's `uint8`. */
  type uint8 = x: int | 0 <= x < 256

  /** Go's `color.RGBA`. */
  datatype RGBA = RGBA(r: uint8, g: uint8, b: uint8, a: uint8)

  /** The QR library's default colours, taken to be opaque black and white. */
  const Black := RGBA(0, 0, 0, 255)
  const White := RGBA(255, 255, 255, 255)

  /**
   * A byte that `strconv.ParseUint` accepts as a digit in base 16. Go folds
   * letters to lower case with `c | 0x20` and rejects letters past 'f' for
   * this base, which leaves exactly these three ranges.
   */
  predicate IsHexDigit(c: char) {
    '0' <= c <= '9' || 'a' <= c <= 'f' || 'A' <= c <= 'F'
  }

  function HexValue(c: char): (v: nat)
    requires IsHexDigit(c)
    ensures v < 16
    ensures '0' <= c <= '9' ==> v == c as int - '0' as int
    ensures !('0' <= c <= '9') ==> v >= 10
  {
    if '0' <= c <= '9' then c as int - '0' as int
    else if 'a' <= c <= 'f' then c as int - 'a' as int + 10
    else c as int - 'A' as int + 10
  }

  /**
   * `strconv.ParseUint(hi lo, 16, 8)` with its error thrown away. Two digits
   * never exceed 255, so the range error cannot occur; a syntax error returns 0.
   */
  function ParsePair(hi: char, lo: char): (v: uint8)
    ensures IsHexDigit(hi) && IsHexDigit(lo) ==> v / 16 == HexValue(hi) && v % 16 == HexValue(lo)
    ensures !(IsHexDigit(hi) && IsHexDigit(lo)) ==> v == 0
  {
    if IsHexDigit(hi) && IsHexDigit(lo) then 16 * HexValue(hi) + HexValue(lo) else 0
  }

  /**
   * `convertColorStringToStruct`: bytes 0-1, 2-3 and 4-5 give red, green and
   * blue; alpha is always 255. The Go slices panic on a string shorter than
   * six bytes, hence the precondition; bytes past the sixth are never read.
   */
  function ParseColor(s: GoString): (c: RGBA)
    requires |s| >= 6
    ensures c.a == 255
  {
    RGBA(ParsePair(s[0], s[1]), ParsePair(s[2], s[3]), ParsePair(s[4], s[5]), 255)
  }

  predicate AllHex(s: GoString) {
    forall i :: 0 <= i < |s| ==> IsHexDigit(s[i])
  }

  // ---------------------------------------------------------------------
  // The reverse direction: writing a colour as six lower-case hex digits,
  // the form of the options' default literals "000000" and "ffffff".

  function HexChar(n: nat): (c: byte)
    requires n < 16
    ensures IsHexDigit(c) && HexValue(c) == n
    ensures !('A' <= c <= 'F')
  {
    if n < 10 then ('0' as int + n) as char else ('a' as int + n - 10) as char
  }

  function FormatColor(c: RGBA): (s: GoString)
    ensures |s| == 6 && AllHex(s)
  {
    [HexChar(c.r / 16), HexChar(c.r % 16),
     HexChar(c.g / 16), HexChar(c.g % 16),
     HexChar(c.b / 16), HexChar(c.b % 16)]
  }

  /** ASCII upper case to lower case; every other character is unchanged. */
  function Lower(c: char): (l: char)
    ensures c as int < 256 ==> l as int < 256
  {
    if 'A' <= c <= 'Z' then (c as int - 'A' as int + 'a' as int) as char else c
  }

  function LowerAll(s: GoString): (t: GoString)
    ensures |t| == |s|
    ensures forall i :: 0 <= i < |s| ==> t[i] == Lower(s[i])
  {
    seq(|s|, i requires 0 <= i < |s| => Lower(s[i]) as byte)
  }

  // ---------------------------------------------------------------------
  // Properties of the decoder.

  /** Six hex digits, in either case, decode to their base-16 channel values. */
  lemma ParseColorOfHex(s: GoString)
    requires |s| >= 6 && AllHex(s[..6])
    ensures ParseColor(s) == RGBA(16 * HexValue(s[0]) + HexValue(s[1]),
                                  16 * HexValue(s[2]) + HexValue(s[3]),
                                  16 * HexValue(s[4]) + HexValue(s[5]), 255)
  {
    forall i | 0 <= i < 6 ensures IsHexDigit(s[i]) { assert s[..6][i] == s[i]; }
  }

  /**
   * The digits one by one, as Go classifies them: a byte folded to lower
   * case must be one of "0123456789abcdef".
   */
  lemma HexDigitFolded(c: byte)
    ensures IsHexDigit(c) <==> Lower(c) in "0123456789abcdef"
  {
    var digits := "0123456789abcdef";
    if IsHexDigit(c) {
      assert Lower(c) == digits[HexValue(c)];
    } else {
      assert forall i :: 0 <= i < |digits| ==> Lower(c) != digits[i];
    }
  }

  /**
   * A pair holding a non-hex byte gives 0 in its own channel, while each
   * channel is a function of its own pair alone: two strings that agree on
   * a pair agree on that channel, whatever else they hold.
   */
  lemma ChannelsAreIndependent(s: GoString, t: GoString)
    requires |s| >= 6 && |t| >= 6
    ensures !(IsHexDigit(s[0]) && IsHexDigit(s[1])) ==> ParseColor(s).r == 0
    ensures !(IsHexDigit(s[2]) && IsHexDigit(s[3])) ==> ParseColor(s).g == 0
    ensures !(IsHexDigit(s[4]) && IsHexDigit(s[5])) ==> ParseColor(s).b == 0
    ensures s[0..2] == t[0..2] ==> ParseColor(s).r == ParseColor(t).r
    ensures s[2..4] == t[2..4] ==> ParseColor(s).g == ParseColor(t).g
    ensures s[4..6] == t[4..6] ==> ParseColor(s).b == ParseColor(t).b
  {
    if s[0..2] == t[0..2] { assert s[0] == s[0..2][0] && s[1] == s[0..2][1]; }
    if s[2..4] == t[2..4] { assert s[2] == s[2..4][0] && s[3] == s[2..4][1]; }
    if s[4..6] == t[4..6] { assert s[4] == s[4..6][0] && s[5] == s[4..6][1]; }
  }

  /** Bytes after the sixth do not affect the result. */
  lemma TrailingBytesIgnored(s: GoString, tail: GoString)
    requires |s| >= 6
    ensures ParseColor(s) == ParseColor(s[..6]) == ParseColor(s[..6] + tail)
  {
    var u := s[..6] + tail;
    assert u[0] == s[0] && u[1] == s[1] && u[2] == s[2];
    assert u[3] == s[3] && u[4] == s[4] && u[5] == s[5];
  }

  lemma ParseColorExamples()
    ensures ParseColor("ff00aa") == RGBA(255, 0, 170, 255)
    ensures ParseColor("FF00AA") == RGBA(255, 0, 170, 255)
    ensures ParseColor("000000") == Black
    ensures ParseColor("ffffff") == White
    ensures ParseColor("zz00aa") == RGBA(0, 0, 170, 255)
    ensures ParseColor("ff00aa99") == RGBA(255, 0, 170, 255)
  {
  }

  /** Decoding undoes formatting for every opaque colour. */
  lemma ParseFormatRoundTrip(c: RGBA)
    requires c.a == 255
    ensures ParseColor(FormatColor(c)) == c
  {
    var s := FormatColor(c);
    assert ParsePair(s[0], s[1]) == c.r by { PairOfDigits(c.r); }
    assert ParsePair(s[2], s[3]) == c.g by { PairOfDigits(c.g); }
    assert ParsePair(s[4], s[5]) == c.b by { PairOfDigits(c.b); }
  }

  lemma PairOfDigits(v: uint8)
    ensures ParsePair(HexChar(v / 16), HexChar(v % 16)) == v
  {
  }

  /** Formatting undoes decoding, up to letter case, on six hex digits. */
  lemma FormatParseRoundTrip(s: GoString)
    requires |s| >= 6 && AllHex(s[..6])
    ensures FormatColor(ParseColor(s)) == LowerAll(s[..6])
  {
    forall i | 0 <= i < 6 ensures IsHexDigit(s[i]) { assert s[..6][i] == s[i]; }
    var lowered := [Lower(s[0]), Lower(s[1]), Lower(s[2]), Lower(s[3]), Lower(s[4]), Lower(s[5])];
    assert FormatColor(ParseColor(s)) == lowered by {
      DigitsOfPair(s[0], s[1]);
      DigitsOfPair(s[2], s[3]);
      DigitsOfPair(s[4], s[5]);
    }
    assert LowerAll(s[..6]) == lowered by {
      forall i | 0 <= i < 6 ensures LowerAll(s[..6])[i] == lowered[i] { assert s[..6][i] == s[i]; }
    }
  }

  /** The two digits of a decoded pair format back to the pair, in lower case. */
  lemma DigitsOfPair(hi: char, lo: char)
    requires IsHexDigit(hi) && IsHexDigit(lo)
    ensures HexChar(ParsePair(hi, lo) / 16) == Lower(hi)
    ensures HexChar(ParsePair(hi, lo) % 16) == Lower(lo)
  {
    var v := ParsePair(hi, lo);
    assert v / 16 == HexValue(hi) && v % 16 == HexValue(lo);
    LowerOfDigit(hi);
    LowerOfDigit(lo);
  }

  lemma LowerOfDigit(c: char)
    requires IsHexDigit(c)
    ensures HexChar(HexValue(c)) == Lower(c)
  {
  }
}
