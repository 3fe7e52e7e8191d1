/**
 * `UIColor(hex:alpha:)` (Helpers/Color.swift): a colour from a hex string
 * such as "#005C78". The string is trimmed, one leading '#' dropped, and
 * only a six-character remainder is read as red, green and blue bytes;
 * anything else gives opaque black.
 */
module Color {
  import opened Values
  import opened Text

  /** Colour components in 0..1, as `UIColor` takes them. */
  datatype Rgba = Rgba(red: real, green: real, blue: real, alpha: real)

  const OpaqueBlack: Rgba := Rgba(0.0, 0.0, 0.0, 1.0)

  predicate IsHexDigit(c: char) {
    ('0' <= c <= '9') || ('a' <= c <= 'f') || ('A' <= c <= 'F')
  }

  function DigitValue(c: char): (d: nat)
    requires IsHexDigit(c)
    ensures d < 16
  {
    if '0' <= c <= '9' then (c as int) - ('0' as int)
    else if 'a' <= c <= 'f' then (c as int) - ('a' as int) + 10
    else (c as int) - ('A' as int) + 10
  }

  function Pow16(n: nat): (p: nat)
    ensures p >= 1
  {
    if n == 0 then 1 else 16 * Pow16(n - 1)
  }

  /** The number a run of hex digits spells, most significant first. */
  function HexValue(digits: string): (v: nat)
    requires forall i :: 0 <= i < |digits| ==> IsHexDigit(digits[i])
    ensures v < Pow16(|digits|)
  {
    if digits == [] then 0
    else 16 * HexValue(digits[..|digits| - 1]) + DigitValue(digits[|digits| - 1])
  }

  /** The length of the longest run of hex digits at the front of `s`. */
  function HexRun(s: string): (n: nat)
    ensures n <= |s|
    ensures forall i :: 0 <= i < n ==> IsHexDigit(s[i])
    ensures n == |s| || !IsHexDigit(s[n])
  {
    if s != [] && IsHexDigit(s[0]) then 1 + HexRun(s[1..]) else 0
  }

  /**
   * `Scanner(string:).scanHexInt64(&rgb)` starting from `rgb = 0`: leading
   * whitespace is skipped, an optional "0x" or "0X" prefix is passed over,
   * and the longest run of hex digits that follows is the value; with no
   * digits `rgb` stays 0. Only strings of six characters are scanned here,
   * so the value stays below 16^6 and the 64-bit overflow case never arises.
   */
  function ScanHex(s: string): (v: nat)
    ensures v < Pow16(|s|)
  {
    var t := TrimStart(s);
    var body := if |t| >= 2 && t[0] == '0' && (t[1] == 'x' || t[1] == 'X') then t[2..] else t;
    var n := HexRun(body);
    PowMonotone(n, |s|);
    HexValue(body[..n])
  }

  lemma {:induction false} PowMonotone(m: nat, n: nat)
    requires m <= n
    ensures Pow16(m) <= Pow16(n)
  {
    if m < n {
      PowMonotone(m, n - 1);
    }
  }

  /** `(rgb >> 16) & 0xFF`, `(rgb >> 8) & 0xFF` and `rgb & 0xFF`: three bytes. */
  function Channels(rgb: nat): (c: (nat, nat, nat))
    ensures c.0 < 256 && c.1 < 256 && c.2 < 256
    ensures c.2 == rgb % 256
  {
    ((rgb / 65536) % 256, (rgb / 256) % 256, rgb % 256)
  }

  /** For a 24-bit value the three bytes spell the value back. */
  lemma ChannelsRecombine(rgb: nat)
    requires rgb < 0x100_0000
    ensures Channels(rgb).0 * 65536 + Channels(rgb).1 * 256 + Channels(rgb).2 == rgb
  {
    var hi := rgb / 256;
    assert rgb == hi * 256 + rgb % 256;
    assert hi == (hi / 256) * 256 + hi % 256;
    assert hi / 256 == rgb / 65536;
    assert rgb / 65536 < 256;
  }

  /** The trimmed string without one leading '#', the string the colour is read from. */
  function Sanitize(hex: string): (s: string)
    ensures s == Trim(hex) || (Trim(hex) != [] && Trim(hex)[0] == '#' && s == Trim(hex)[1..])
    ensures Trim(hex) != [] && Trim(hex)[0] == '#' ==> s == Trim(hex)[1..]
  {
    var t := Trim(hex);
    if |t| > 0 && t[0] == '#' then t[1..] else t
  }

  /** Only one '#' is removed: "##abcde" keeps its second '#'. */
  lemma SanitizeRemovesOneHash(rest: string)
    requires rest == [] || !IsWhitespaceOrNewline(rest[|rest| - 1])
    ensures Sanitize("##" + rest) == "#" + rest
  {
    TrimNoEdgeWhitespace("##" + rest);
    assert ("##" + rest)[1..] == "#" + rest;
  }

  /** Whitespace and newlines around the colour are removed before anything else. */
  lemma SanitizeIgnoresSurroundingWhitespace(before: string, hex: string, after: string)
    requires AllWhitespace(before) && AllWhitespace(after)
    requires hex == [] || (!IsWhitespaceOrNewline(hex[0]) && !IsWhitespaceOrNewline(hex[|hex| - 1]))
    ensures Sanitize(before + hex + after) == Sanitize(hex)
  {
    TrimSurrounded(before, hex, after);
    TrimNoEdgeWhitespace(hex);
  }

  /** Six hex digits scan to exactly the number they spell, below 2^24. */
  lemma {:induction false} ScanSixDigits(s: string)
    requires |s| == 6 && forall i :: 0 <= i < 6 ==> IsHexDigit(s[i])
    ensures ScanHex(s) == HexValue(s) && ScanHex(s) < 0x100_0000
  {
    assert TrimStart(s) == s;
    assert !IsHexDigit('x') && !IsHexDigit('X');
    assert HexRun(s) == 6;
    assert s[..6] == s;
    assert Pow16(6) == 0x100_0000;
  }

  /**
   * `UIColor(hex:alpha:)`. The sanitised string is built step by step as in
   * the source; a length other than six gives opaque black whatever `alpha`
   * is, otherwise each channel byte becomes a component in 0..1 and the
   * alpha defaults to 1.
   */
  method ColorFromHex(hex: string, alpha: Option<real>) returns (c: Rgba)
    ensures |Sanitize(hex)| != 6 ==> c == OpaqueBlack
    ensures |Sanitize(hex)| == 6 ==>
              var (r, g, b) := Channels(ScanHex(Sanitize(hex)));
              && c.red * 255.0 == r as real
              && c.green * 255.0 == g as real
              && c.blue * 255.0 == b as real
              && c.alpha == alpha.GetOr(1.0)
    ensures |Sanitize(hex)| == 6 ==>
              0.0 <= c.red <= 1.0 && 0.0 <= c.green <= 1.0 && 0.0 <= c.blue <= 1.0
  {
    var hexSanitized := Trim(hex);
    if |hexSanitized| > 0 && hexSanitized[0] == '#' {
      hexSanitized := hexSanitized[1..];
    }
    if |hexSanitized| == 6 {
      var rgb := ScanHex(hexSanitized);
      var (r, g, b) := Channels(rgb);
      var finalAlpha := alpha.GetOr(1.0);
      c := Rgba(r as real / 255.0, g as real / 255.0, b as real / 255.0, finalAlpha);
    } else {
      c := OpaqueBlack;
    }
  }

  /**
   * For six hex digits the three bytes read out of the colour spell the
   * digits' value back.
   */
  lemma SixDigitChannelsSpellValue(s: string)
    requires |s| == 6 && forall i :: 0 <= i < 6 ==> IsHexDigit(s[i])
    ensures var (r, g, b) := Channels(ScanHex(s)); r * 65536 + g * 256 + b == HexValue(s)
  {
    ScanSixDigits(s);
    ChannelsRecombine(ScanHex(s));
  }
}
