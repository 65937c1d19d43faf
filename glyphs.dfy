/** Glyph records as the font library yields them, and their display names
    (`getGlyphName` in fonts/Tables/enumerateGlyphs.py). */
module Glyphs {
  import opened Options
  import opened Format

  /** A glyph: its code point, or -1 when the font assigns it none, and its internal name. */
  datatype Glyph = Glyph(unicode: int, glyphname: string)

  /** What the font library can report: the sentinel -1 or a Unicode scalar range value. */
  predicate ValidGlyph(g: Glyph) {
    g.unicode == -1 || 0 <= g.unicode <= 0x10FFFF
  }

  /** The raw name for a glyph without a code point, otherwise `"U+%06X"` of its code point:
      "U+" and at least six upper-case hexadecimal digits that denote the code point, exactly
      six for every code point of the Unicode code space. */
  function GetGlyphName(g: Glyph): (r: string)
    requires g.unicode >= -1
    ensures g.unicode == -1 ==> r == g.glyphname
    ensures g.unicode != -1 ==> |r| >= 8 && r[..2] == "U+"
    ensures g.unicode != -1 ==> AllDigits(r[2..], 16) && NumeralValue(r[2..], 16) == g.unicode
    ensures g.unicode != -1 ==> (|r| == 8 <==> g.unicode < 0x100_0000)
  {
    if g.unicode == -1 then g.glyphname
    else
      Hex06RoundTrip(g.unicode);
      "U+" + Hex06(g.unicode)
  }

  /** Reads a `U+XXXXXX` display name back into its code point. */
  function ParseCodePointName(s: string): (r: Option<int>)
    ensures r.Some? ==> 0 <= r.value < 0x100_0000
  {
    if |s| == 8 && s[..2] == "U+" && AllDigits(s[2..], 16) then
      NumeralValueBound(s[2..], 16);
      assert Pow(16, 6) == 0x100_0000;
      Some(NumeralValue(s[2..], 16))
    else None
  }

  /** Every code point's display name reads back as that code point. */
  lemma GlyphNameRoundTrip(g: Glyph)
    requires ValidGlyph(g) && g.unicode != -1
    ensures ParseCodePointName(GetGlyphName(g)) == Some(g.unicode)
  {
  }

  /** Every well-formed `U+XXXXXX` string is the display name of the code point it denotes. */
  lemma CodePointNameInverse(s: string, name: string)
    requires ParseCodePointName(s).Some?
    ensures GetGlyphName(Glyph(ParseCodePointName(s).value, name)) == s
  {
    var digits := s[2..];
    var v := NumeralValue(digits, 16);
    assert ParseCodePointName(s) == Some(v);
    Hex06Inverse(digits);
    calc {
      GetGlyphName(Glyph(v, name));
      "U+" + Hex06(v);
      s[..2] + digits;
      s;
    }
  }
}
