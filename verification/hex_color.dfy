/**
 * HTML colour codes: `#RRGGBB` formatting of a colour, parsing a code back
 * into channels, and parsing a palette given as one code per line.
 */
module HexColor {
  import opened Wrappers

  type Byte = x: int | 0 <= x < 256

  /** An RGB colour with channels nominally in 0..1. */
  datatype Color3 = Color3(r: real, g: real, b: real)

  /** A digit that radix-16 parsing accepts, in either case. */
  predicate IsHexDigit(c: char) {
    '0' <= c <= '9' || 'a' <= c <= 'f' || 'A' <= c <= 'F'
  }

  /** A digit as upper-case hex formatting writes it. */
  predicate IsUpperHexDigit(c: char) {
    '0' <= c <= '9' || 'A' <= c <= 'F'
  }

  function HexValue(c: char): (v: nat)
    requires IsHexDigit(c)
    ensures v < 16
  {
    if '0' <= c <= '9' then c as int - '0' as int
    else if 'a' <= c <= 'f' then c as int - 'a' as int + 10
    else c as int - 'A' as int + 10
  }

  /** The upper-case digit for `d`; reading it back gives `d`. */
  function HexDigit(d: nat): (c: char)
    requires d < 16
    ensures IsUpperHexDigit(c) && IsHexDigit(c) && HexValue(c) == d
  {
    if d < 10 then ('0' as int + d) as char else ('A' as int + d - 10) as char
  }

  /** `{:02X}` of a byte: always two upper-case digits, high nibble first. */
  function Hex2(b: Byte): (s: string)
    ensures |s| == 2 && IsUpperHexDigit(s[0]) && IsUpperHexDigit(s[1])
    ensures 16 * HexValue(s[0]) + HexValue(s[1]) == b
  {
    [HexDigit(b / 16), HexDigit(b % 16)]
  }

  /** `#{:02X}{:02X}{:02X}`: a '#' and three two-digit fields. */
  function FormatRgb(r: Byte, g: Byte, b: Byte): (s: string)
    ensures |s| == 7 && s[0] == '#'
    ensures s[1..3] == Hex2(r) && s[3..5] == Hex2(g) && s[5..7] == Hex2(b)
  {
    "#" + Hex2(r) + Hex2(g) + Hex2(b)
  }

  /** The float-to-byte cast `v as u8`: truncation toward zero, saturating at 0 and 255. */
  function CastU8(v: real): (b: Byte)
    ensures 0.0 <= v < 256.0 ==> b as real <= v < b as real + 1.0
    ensures v < 0.0 ==> b == 0
    ensures v >= 255.0 ==> b == 255
  {
    if v <= 0.0 then 0 else if v >= 255.0 then 255 else v.Floor
  }

  /** The HTML colour code of a colour with channels in 0..1. */
  function RgbVecToString(c: Color3): (s: string)
    ensures |s| == 7 && s[0] == '#'
    ensures forall i :: 1 <= i < 7 ==> IsUpperHexDigit(s[i])
  {
    FormatRgb(CastU8(c.r * 255.0), CastU8(c.g * 255.0), CastU8(c.b * 255.0))
  }

  /**
   * Signed radix-16 parsing of a two-character field: either two digits, or a
   * '+' or '-' sign followed by one digit.
   */
  function ParseHexField(f: string): (v: Option<int>)
    requires |f| == 2
    ensures v.Some? <==> IsHexDigit(f[1]) && (f[0] == '+' || f[0] == '-' || IsHexDigit(f[0]))
    ensures v.Some? ==> -15 <= v.value <= 255
    ensures v.Some? && f[0] != '-' ==> 0 <= v.value
    ensures v.Some? && IsHexDigit(f[0]) ==> v.value == 16 * HexValue(f[0]) + HexValue(f[1])
  {
    if !IsHexDigit(f[1]) then None
    else if f[0] == '+' then Some(HexValue(f[1]))
    else if f[0] == '-' then Some(0 - HexValue(f[1]) as int)
    else if IsHexDigit(f[0]) then Some(16 * HexValue(f[0]) + HexValue(f[1]))
    else None
  }

  /**
   * Channels 0..255 read from the fields at positions 1-2, 3-4 and 5-6; the
   * first character is not inspected and characters after the seventh are
   * ignored. None stands for the panic on a short string or a bad field.
   */
  function ParseRgbI64(s: string): (c: Option<(int, int, int)>)
    ensures c.Some? <==> |s| >= 7 && ParseHexField(s[1..3]).Some?
                                  && ParseHexField(s[3..5]).Some? && ParseHexField(s[5..7]).Some?
    ensures c.Some? ==> c.value == (ParseHexField(s[1..3]).value,
                                    ParseHexField(s[3..5]).value, ParseHexField(s[5..7]).value)
    ensures c.Some? ==> -15 <= c.value.0 <= 255 && -15 <= c.value.1 <= 255 && -15 <= c.value.2 <= 255
  {
    if |s| < 7 then None
    else
      match (ParseHexField(s[1..3]), ParseHexField(s[3..5]), ParseHexField(s[5..7]))
      case (Some(r), Some(g), Some(b)) => Some((r, g, b))
      case _ => None
  }

  /** The channels of a colour code scaled to 0..1. */
  function ParseRgbF64(s: string): (c: Option<Color3>)
    ensures c.Some? <==> ParseRgbI64(s).Some?
    ensures c.Some? ==> c.value == Color3(ParseRgbI64(s).value.0 as real / 255.0,
                                          ParseRgbI64(s).value.1 as real / 255.0,
                                          ParseRgbI64(s).value.2 as real / 255.0)
  {
    match ParseRgbI64(s)
    case Some((r, g, b)) => Some(Color3(r as real / 255.0, g as real / 255.0, b as real / 255.0))
    case None => None
  }

  /** Parsing a formatted byte triple gives the triple back. */
  lemma FormatThenParse(r: Byte, g: Byte, b: Byte)
    ensures ParseRgbI64(FormatRgb(r, g, b)) == Some((r, g, b))
  {
  }

  /** A canonical code (a '#' then six upper-case digits) parses to bytes that format back to it. */
  lemma ParseThenFormat(s: string)
    requires |s| == 7 && s[0] == '#' && forall i :: 1 <= i < 7 ==> IsUpperHexDigit(s[i])
    ensures ParseRgbI64(s).Some?
    ensures var c := ParseRgbI64(s).value;
            0 <= c.0 < 256 && 0 <= c.1 < 256 && 0 <= c.2 < 256 && FormatRgb(c.0, c.1, c.2) == s
  {
    var c := ParseRgbI64(s).value;
    HexFieldInverse(s[1..3]);
    HexFieldInverse(s[3..5]);
    HexFieldInverse(s[5..7]);
    assert FormatRgb(c.0, c.1, c.2) == s[..1] + s[1..3] + s[3..5] + s[5..7];
    assert s[..1] + s[1..3] + s[3..5] + s[5..7] == s;
  }

  /** Two upper-case digits are the `{:02X}` form of the byte they denote. */
  lemma HexFieldInverse(f: string)
    requires |f| == 2 && IsUpperHexDigit(f[0]) && IsUpperHexDigit(f[1])
    ensures ParseHexField(f).Some? && 0 <= ParseHexField(f).value < 256
    ensures Hex2(ParseHexField(f).value) == f
  {
  }

  /** A colour whose channels are multiples of 1/255 survives formatting and parsing unchanged. */
  lemma ColorRoundTrip(r: Byte, g: Byte, b: Byte)
    ensures var c := Color3(r as real / 255.0, g as real / 255.0, b as real / 255.0);
            RgbVecToString(c) == FormatRgb(r, g, b) && ParseRgbF64(RgbVecToString(c)) == Some(c)
  {
  }

  // Line splitting as a buffered reader's `lines()` does it.

  /** The position of the first '\n' in `s`, or |s| when there is none. */
  function LineEnd(s: string): (k: nat)
    ensures k <= |s| && (k < |s| ==> s[k] == '\n')
    ensures forall j :: 0 <= j < k ==> s[j] != '\n'
  {
    if s == [] || s[0] == '\n' then 0 else 1 + LineEnd(s[1..])
  }

  /** Drops one trailing carriage return. */
  function StripCr(line: string): string {
    if |line| > 0 && line[|line| - 1] == '\r' then line[..|line| - 1] else line
  }

  /**
   * The lines of `s`: split at each '\n', a '\r' before the '\n' removed, and
   * a last line kept only when it is not empty.
   */
  function Lines(s: string): (ls: seq<string>)
    ensures forall i :: 0 <= i < |ls| ==> '\n' !in ls[i]
    decreases |s|
  {
    if s == [] then []
    else
      var k := LineEnd(s);
      if k == |s| then [s] else [StripCr(s[..k])] + Lines(s[k + 1..])
  }

  /** Each line followed by a newline. */
  function JoinLines(ls: seq<string>): string {
    if ls == [] then "" else ls[0] + "\n" + JoinLines(ls[1..])
  }

  predicate IsPlainLine(l: string) {
    '\n' !in l && (|l| > 0 ==> l[|l| - 1] != '\r')
  }

  /** Splitting newline-terminated plain lines gives the lines back. */
  lemma {:induction false} LinesOfJoin(ls: seq<string>)
    requires forall i :: 0 <= i < |ls| ==> IsPlainLine(ls[i])
    ensures Lines(JoinLines(ls)) == ls
  {
    if ls != [] {
      var l, rest := ls[0], JoinLines(ls[1..]);
      var s := l + "\n" + rest;
      assert s == JoinLines(ls);
      assert s[|l|] == '\n';
      assert forall j :: 0 <= j < |l| ==> s[j] == l[j];
      assert LineEnd(s) == |l|;
      assert s[..|l|] == l && s[|l| + 1..] == rest;
      LinesOfJoin(ls[1..]);
    }
  }

  /** The text of a palette file: one colour code per line. */
  function PaletteText(ts: seq<(Byte, Byte, Byte)>): string {
    JoinLines(seq(|ts|, i requires 0 <= i < |ts| => FormatRgb(ts[i].0, ts[i].1, ts[i].2)))
  }

  /** A formatted palette reads back as one code per colour, each parsing to that colour. */
  lemma PaletteRoundTrip(ts: seq<(Byte, Byte, Byte)>)
    ensures |Lines(PaletteText(ts))| == |ts|
    ensures forall i :: 0 <= i < |ts| ==>
      ParseRgbF64(Lines(PaletteText(ts))[i])
        == Some(Color3(ts[i].0 as real / 255.0, ts[i].1 as real / 255.0, ts[i].2 as real / 255.0))
  {
    var codes := seq(|ts|, i requires 0 <= i < |ts| => FormatRgb(ts[i].0, ts[i].1, ts[i].2));
    forall i | 0 <= i < |codes| ensures IsPlainLine(codes[i]) {
      assert '\n' !in codes[i];
    }
    LinesOfJoin(codes);
    forall i | 0 <= i < |ts|
      ensures ParseRgbF64(codes[i])
        == Some(Color3(ts[i].0 as real / 255.0, ts[i].1 as real / 255.0, ts[i].2 as real / 255.0))
    {
      FormatThenParse(ts[i].0, ts[i].1, ts[i].2);
    }
  }

  /** Reads a palette: one colour per line, in order; None if any line fails to parse. */
  method ParsePalette(csvColors: string) returns (colors: Option<seq<Color3>>)
    ensures colors.Some? <==> forall i :: 0 <= i < |Lines(csvColors)| ==> ParseRgbF64(Lines(csvColors)[i]).Some?
    ensures colors.Some? ==> |colors.value| == |Lines(csvColors)|
    ensures colors.Some? ==> forall i :: 0 <= i < |colors.value| ==>
      colors.value[i] == ParseRgbF64(Lines(csvColors)[i]).value
  {
    var lines := Lines(csvColors);
    var listColors: seq<Color3> := [];
    for i := 0 to |lines|
      invariant |listColors| == i
      invariant forall j :: 0 <= j < i ==> ParseRgbF64(lines[j]).Some? && listColors[j] == ParseRgbF64(lines[j]).value
    {
      var rgbColor := ParseRgbF64(lines[i]);
      if rgbColor.None? {
        assert !ParseRgbF64(Lines(csvColors)[i]).Some?;
        return None;
      }
      listColors := listColors + [rgbColor.value];
    }
    return Some(listColors);
  }
}
