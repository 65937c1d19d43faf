/** The script as a whole: one report per font, in the order the fonts are given, each
    classified against the script's own block table. */
module Enumerate {
  import opened Blocks
  import opened Report
  import opened ReportProperties

  /** The loop over the fonts for any well-formed table. */
  method EnumerateWith(t: seq<Block>, fonts: seq<Font>) returns (output: seq<string>)
    requires WellFormed(t) && AllFontsValid(fonts)
    ensures output == Reports(t, fonts)
  {
    var w := new ReportWriter(t);
    for i := 0 to |fonts|
      invariant w.Valid() && w.table == t
      invariant w.out == Reports(t, fonts[..i])
    {
      var s0 := w.Snapshot();
      w.ProcessFont(fonts[i].name, fonts[i].glyphs);
      FontOutputIndependent(t, s0, fonts[i].name, fonts[i].glyphs);
      assert fonts[..i + 1][..i] == fonts[..i];
    }
    assert fonts[..|fonts|] == fonts;
    output := w.out;
  }

  /** What the script prints for a list of fonts. */
  method EnumerateGlyphs(fonts: seq<Font>) returns (output: seq<string>)
    requires AllFontsValid(fonts)
    ensures WellFormed(UnicodeBlocks) && output == Reports(UnicodeBlocks, fonts)
  {
    TableShape();
    output := EnumerateWith(UnicodeBlocks, fonts);
  }
}
