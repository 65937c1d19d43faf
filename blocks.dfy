/** The Unicode block table of fonts/Tables/enumerateGlyphs.py and the classifier that
    looks a code point up in it. The classifier and the lemmas about it are stated for
    any table `t`; `TableShape` proves that the script's own table meets the
    well-formedness they assume. */
module Blocks {

  /** One row of the table: a block name and its inclusive code point range. */
  datatype Block = Block(name: string, first: int, last: int)

  predicate Contains(b: Block, c: int) {
    b.first <= c <= b.last
  }

  /** Every range is non-empty and ends before every later range starts. */
  predicate Ordered(t: seq<Block>) {
    (forall i :: 0 <= i < |t| ==> t[i].first <= t[i].last) &&
    (forall i, j :: 0 <= i < j < |t| ==> t[i].last < t[j].first)
  }

  /** An ordered table within the Unicode code space 0..0x10FFFF. */
  predicate WellFormed(t: seq<Block>) {
    |t| > 0 && 0 <= t[0].first && t[|t| - 1].last <= 0x10FFFF && Ordered(t)
  }

  // ------------------------------------------------------------------ classifier

  /** First-match search from index `i`: the index of the first entry at or after `i`
      whose range contains `c`, or -1. */
  function FirstBlockFrom(t: seq<Block>, c: int, i: nat): (r: int)
    requires i <= |t|
    ensures r == -1 || (i <= r < |t| && Contains(t[r], c))
    ensures r == -1 <==> forall j :: i <= j < |t| ==> !Contains(t[j], c)
    ensures forall j :: i <= j < |t| && (r == -1 || j < r) ==> !Contains(t[j], c)
    decreases |t| - i
  {
    if i == |t| then -1
    else if t[i].first <= c && c <= t[i].last then i
    else FirstBlockFrom(t, c, i + 1)
  }

  /** The classification of a code point: the index of the first table entry containing
      it, or -1 when no entry does. */
  function BlockOf(t: seq<Block>, c: int): (r: int)
    ensures r == -1 || (0 <= r < |t| && Contains(t[r], c))
    ensures r == -1 <==> forall j :: 0 <= j < |t| ==> !Contains(t[j], c)
    ensures forall j :: 0 <= j < |t| && (r == -1 || j < r) ==> !Contains(t[j], c)
  {
    FirstBlockFrom(t, c, 0)
  }

  /** `getCurrentBlock`: a linear scan that returns the first index whose range contains
      the code point, and -1 after the last entry. */
  method GetCurrentBlock(t: seq<Block>, c: int) returns (r: int)
    ensures r == -1 || (0 <= r < |t| && Contains(t[r], c))
    ensures r == -1 <==> forall j :: 0 <= j < |t| ==> !Contains(t[j], c)
    ensures forall j :: 0 <= j < |t| && (r == -1 || j < r) ==> !Contains(t[j], c)
    ensures r == BlockOf(t, c)
  {
    for i := 0 to |t|
      invariant forall j :: 0 <= j < i ==> !Contains(t[j], c)
    {
      if t[i].first <= c && c <= t[i].last {
        return i;
      }
    }
    return -1;
  }

  /** Name printed in a group header: a table entry's, or the synthetic group of glyphs
      that have no code point or one outside every block. */
  function BlockName(t: seq<Block>, b: int): string
    requires b == -1 || 0 <= b < |t|
  {
    if b == -1 then "Non Unicode Glyphs" else t[b].name
  }

  /** In an ordered table no code point lies in two entries, so first match is only match. */
  lemma AtMostOneBlock(t: seq<Block>, c: int, i: int, j: int)
    requires Ordered(t)
    requires 0 <= i < |t| && 0 <= j < |t|
    requires Contains(t[i], c) && Contains(t[j], c)
    ensures i == j
  {
  }

  /** The loop's "still inside the current block" range test agrees with classification. */
  lemma RangeTestAgrees(t: seq<Block>, b: int, c: int)
    requires Ordered(t) && 0 <= b < |t|
    ensures Contains(t[b], c) <==> BlockOf(t, c) == b
  {
    if Contains(t[b], c) {
      var r := BlockOf(t, c);
      AtMostOneBlock(t, c, r, b);
    }
  }

  /** A code point outside 0..0x10FFFF, and so the sentinel -1, is in no block. */
  lemma OutsideCodeSpace(t: seq<Block>, c: int)
    requires WellFormed(t)
    requires c < 0 || c > 0x10FFFF
    ensures BlockOf(t, c) == -1
  {
  }

  /** A code point strictly between two neighbouring blocks belongs to none. */
  lemma BetweenBlocks(t: seq<Block>, i: int, c: int)
    requires Ordered(t) && 0 <= i < |t| - 1
    requires t[i].last < c < t[i + 1].first
    ensures BlockOf(t, c) == -1
  {
    forall j | 0 <= j < |t|
      ensures !Contains(t[j], c)
    {
      if j < i {
        assert t[j].last < t[i].first;
      } else if j > i + 1 {
        assert t[i + 1].last < t[j].first;
      }
    }
  }

  // ----------------------------------------------------------------- the table

  /** The table, entry for entry as the script lists it (a Unicode 6.1 era copy of
      Blocks.txt, spelling included). It is written in parts of twenty rows so that the
      shape of each part can be checked by evaluation; `UnicodeBlocks` is their
      concatenation, in order. */
  const Part0: seq<Block> := [
    Block("Basic Latin", 0x0000, 0x007F),
    Block("Latin-1 Supplement", 0x0080, 0x00FF),
    Block("Latin Extended-A", 0x0100, 0x017F),
    Block("Latin Extended-B", 0x0180, 0x024F),
    Block("IPA Extensions", 0x0250, 0x02AF),
    Block("Spacing Modifier Letters", 0x02B0, 0x02FF),
    Block("Combining Diacritical Marks", 0x0300, 0x036F),
    Block("Greek and Coptic", 0x0370, 0x03FF),
    Block("Cyrillic", 0x0400, 0x04FF),
    Block("Cyrillic Supplement", 0x0500, 0x052F),
    Block("Armenian", 0x0530, 0x058F),
    Block("Hebrew", 0x0590, 0x05FF),
    Block("Arabic", 0x0600, 0x06FF),
    Block("Syriac", 0x0700, 0x074F),
    Block("Arabic Supplement", 0x0750, 0x077F),
    Block("Thaana", 0x0780, 0x07BF),
    Block("NKo", 0x07C0, 0x07FF),
    Block("Samaritan", 0x0800, 0x083F),
    Block("Mandaic", 0x0840, 0x085F),
    Block("Arabic Extended-A", 0x08A0, 0x08FF)
  ]

  const Part1: seq<Block> := [
    Block("Devanagari", 0x0900, 0x097F),
    Block("Bengali", 0x0980, 0x09FF),
    Block("Gurmukhi", 0x0A00, 0x0A7F),
    Block("Gujarati", 0x0A80, 0x0AFF),
    Block("Oriya", 0x0B00, 0x0B7F),
    Block("Tamil", 0x0B80, 0x0BFF),
    Block("Telugu", 0x0C00, 0x0C7F),
    Block("Kannada", 0x0C80, 0x0CFF),
    Block("Malayalam", 0x0D00, 0x0D7F),
    Block("Sinhala", 0x0D80, 0x0DFF),
    Block("Thai", 0x0E00, 0x0E7F),
    Block("Lao", 0x0E80, 0x0EFF),
    Block("Tibetan", 0x0F00, 0x0FFF),
    Block("Myanmar", 0x1000, 0x109F),
    Block("Georgian", 0x10A0, 0x10FF),
    Block("Hangul Jamo", 0x1100, 0x11FF),
    Block("Ethiopic", 0x1200, 0x137F),
    Block("Ethiopic Supplement", 0x1380, 0x139F),
    Block("Cherokee", 0x13A0, 0x13FF),
    Block("Unified Canadian Aboriginal Syllabics", 0x1400, 0x167F)
  ]

  const Part2: seq<Block> := [
    Block("Ogham", 0x1680, 0x169F),
    Block("Runic", 0x16A0, 0x16FF),
    Block("Tagalog", 0x1700, 0x171F),
    Block("Hanunoo", 0x1720, 0x173F),
    Block("Buhid", 0x1740, 0x175F),
    Block("Tagbanwa", 0x1760, 0x177F),
    Block("Khmer", 0x1780, 0x17FF),
    Block("Mongolian", 0x1800, 0x18AF),
    Block("Unified Canadian Aboriginal Syllabics Extended", 0x18B0, 0x18FF),
    Block("Limbu", 0x1900, 0x194F),
    Block("Tai Le", 0x1950, 0x197F),
    Block("New Tai Lue", 0x1980, 0x19DF),
    Block("Khmer Symbols", 0x19E0, 0x19FF),
    Block("Buginese", 0x1A00, 0x1A1F),
    Block("Tai Tham", 0x1A20, 0x1AAF),
    Block("Balinese", 0x1B00, 0x1B7F),
    Block("Sundanese", 0x1B80, 0x1BBF),
    Block("Batak", 0x1BC0, 0x1BFF),
    Block("Lepcha", 0x1C00, 0x1C4F),
    Block("Ol Chiki", 0x1C50, 0x1C7F)
  ]

  const Part3: seq<Block> := [
    Block("Sundanese Supplement", 0x1CC0, 0x1CCF),
    Block("Vedic Extensions", 0x1CD0, 0x1CFF),
    Block("Phonetic Extensions", 0x1D00, 0x1D7F),
    Block("Phonetic Extensions Supplement", 0x1D80, 0x1DBF),
    Block("Combining Diacritical Marks Supplement", 0x1DC0, 0x1DFF),
    Block("Latin Extended Additional", 0x1E00, 0x1EFF),
    Block("Greek Extended", 0x1F00, 0x1FFF),
    Block("General Punctuation", 0x2000, 0x206F),
    Block("Superscripts and Subscripts", 0x2070, 0x209F),
    Block("Currency Symbols", 0x20A0, 0x20CF),
    Block("Combining Diacritical Marks for Symbols", 0x20D0, 0x20FF),
    Block("Letterlike Symbols", 0x2100, 0x214F),
    Block("Number Forms", 0x2150, 0x218F),
    Block("Arrows", 0x2190, 0x21FF),
    Block("Mathematical Operators", 0x2200, 0x22FF),
    Block("Miscellaneous Technical", 0x2300, 0x23FF),
    Block("Control Pictures", 0x2400, 0x243F),
    Block("Optical Character Recognition", 0x2440, 0x245F),
    Block("Enclosed Alphanumerics", 0x2460, 0x24FF),
    Block("Box Drawing", 0x2500, 0x257F)
  ]

  const Part4: seq<Block> := [
    Block("Block Elements", 0x2580, 0x259F),
    Block("Geometric Shapes", 0x25A0, 0x25FF),
    Block("Miscellaneous Symbols", 0x2600, 0x26FF),
    Block("Dingbats", 0x2700, 0x27BF),
    Block("Miscellaneous Mathematical Symbols-A", 0x27C0, 0x27EF),
    Block("Supplemental Arrows-A", 0x27F0, 0x27FF),
    Block("Braille Patterns", 0x2800, 0x28FF),
    Block("Supplemental Arrows-B", 0x2900, 0x297F),
    Block("Miscellaneous Mathematical Symbols-B", 0x2980, 0x29FF),
    Block("Supplemental Mathematical Operators", 0x2A00, 0x2AFF),
    Block("Miscellaneous Symbols and Arrows", 0x2B00, 0x2BFF),
    Block("Glagolitic", 0x2C00, 0x2C5F),
    Block("Latin Extended-C", 0x2C60, 0x2C7F),
    Block("Coptic", 0x2C80, 0x2CFF),
    Block("Georgian Supplement", 0x2D00, 0x2D2F),
    Block("Tifinagh", 0x2D30, 0x2D7F),
    Block("Ethiopic Extended", 0x2D80, 0x2DDF),
    Block("Cyrillic Extended-A", 0x2DE0, 0x2DFF),
    Block("Supplemental Punctuation", 0x2E00, 0x2E7F),
    Block("CJK Radicals Supplement", 0x2E80, 0x2EFF)
  ]

  const Part5: seq<Block> := [
    Block("Kangxi Radicals", 0x2F00, 0x2FDF),
    Block("Ideographic Description Characters", 0x2FF0, 0x2FFF),
    Block("CJK Symbols and Punctuation", 0x3000, 0x303F),
    Block("Hiragana", 0x3040, 0x309F),
    Block("Katakana", 0x30A0, 0x30FF),
    Block("Bopomofo", 0x3100, 0x312F),
    Block("Hangul Compatibility Jamo", 0x3130, 0x318F),
    Block("Kanbun", 0x3190, 0x319F),
    Block("Bopomofo Extended", 0x31A0, 0x31BF),
    Block("CJK Strokes", 0x31C0, 0x31EF),
    Block("Katakana Phonetic Extensions", 0x31F0, 0x31FF),
    Block("Enclosed CJK Letters and Months", 0x3200, 0x32FF),
    Block("CJK Compatibility", 0x3300, 0x33FF),
    Block("CJK Unified Ideographs Extension A", 0x3400, 0x4DBF),
    Block("Yijing Hexagram Symbols", 0x4DC0, 0x4DFF),
    Block("CJK Unified Ideographs", 0x4E00, 0x9FFF),
    Block("Yi Syllables", 0xA000, 0xA48F),
    Block("Yi Radicals", 0xA490, 0xA4CF),
    Block("Lisu", 0xA4D0, 0xA4FF),
    Block("Vai", 0xA500, 0xA63F)
  ]

  const Part6: seq<Block> := [
    Block("Cyrillic Extended-B", 0xA640, 0xA69F),
    Block("Bamum", 0xA6A0, 0xA6FF),
    Block("Modifier Tone Letters", 0xA700, 0xA71F),
    Block("Latin Extended-D", 0xA720, 0xA7FF),
    Block("Syloti Nagri", 0xA800, 0xA82F),
    Block("Common Indic Number Forms", 0xA830, 0xA83F),
    Block("Phags-pa", 0xA840, 0xA87F),
    Block("Saurashtra", 0xA880, 0xA8DF),
    Block("Devanagari Extended", 0xA8E0, 0xA8FF),
    Block("Kayah Li", 0xA900, 0xA92F),
    Block("Rejang", 0xA930, 0xA95F),
    Block("Hangul Jamo Extended-A", 0xA960, 0xA97F),
    Block("Javanese", 0xA980, 0xA9DF),
    Block("Cham", 0xAA00, 0xAA5F),
    Block("Myanmar Extended-A", 0xAA60, 0xAA7F),
    Block("Tai Viet", 0xAA80, 0xAADF),
    Block("Meetei Mayek Extensions", 0xAAE0, 0xAAFF),
    Block("Ethiopic Extended-A", 0xAB00, 0xAB2F),
    Block("Meetei Mayek", 0xABC0, 0xABFF),
    Block("Hangul Syllables", 0xAC00, 0xD7AF)
  ]

  const Part7: seq<Block> := [
    Block("Hangul Jamo Extended-B", 0xD7B0, 0xD7FF),
    Block("High Surrogates", 0xD800, 0xDB7F),
    Block("High Private Use Surrogates", 0xDB80, 0xDBFF),
    Block("Low Surrogates", 0xDC00, 0xDFFF),
    Block("Private Use Area", 0xE000, 0xF8FF),
    Block("CJK Compatibility Ideographs", 0xF900, 0xFAFF),
    Block("Alphabetic Presentation Forms", 0xFB00, 0xFB4F),
    Block("Arabic Presentation Forms-A", 0xFB50, 0xFDFF),
    Block("Variation Selectors", 0xFE00, 0xFE0F),
    Block("Vertical Forms", 0xFE10, 0xFE1F),
    Block("Combining Half Marks", 0xFE20, 0xFE2F),
    Block("CJK Compatibility Forms", 0xFE30, 0xFE4F),
    Block("Small Form Variants", 0xFE50, 0xFE6F),
    Block("Arabic Presentation Forms-B", 0xFE70, 0xFEFF),
    Block("Halfwidth and fullwidth forms", 0xFF00, 0xFFEF),
    Block("Specials", 0xFFF0, 0xFFFF),
    Block("Linear B Syllabary", 0x10000, 0x1007F),
    Block("Linear B Ideograms", 0x10080, 0x100FF),
    Block("Aegean Numbers", 0x10100, 0x1013F),
    Block("Ancient Greek Numbers", 0x10140, 0x1018F)
  ]

  const Part8: seq<Block> := [
    Block("Ancient Symbols", 0x10190, 0x101CF),
    Block("Phaistos Disc", 0x101D0, 0x101FF),
    Block("Lycian", 0x10280, 0x1029F),
    Block("Carian", 0x102A0, 0x102DF),
    Block("Old Italic", 0x10300, 0x1032F),
    Block("Gothic", 0x10330, 0x1034F),
    Block("Ugaritic", 0x10380, 0x1039F),
    Block("Old Persian", 0x103A0, 0x103DF),
    Block("Deseret", 0x10400, 0x1044F),
    Block("Shavian", 0x10450, 0x1047F),
    Block("Osmanya", 0x10480, 0x104AF),
    Block("Cypriot Syllabary", 0x10800, 0x1083F),
    Block("Imperial Aramaic", 0x10840, 0x1085F),
    Block("Phoenician", 0x10900, 0x1091F),
    Block("Lydian", 0x10920, 0x1093F),
    Block("Meroitic Hieroglyphs", 0x10980, 0x1099F),
    Block("Meoritic Cursive", 0x109A0, 0x109FF),
    Block("Kharoshthi", 0x10A00, 0x10A5F),
    Block("Old South Arabian", 0x10A60, 0x10A7F),
    Block("Avestan", 0x10B00, 0x10B3F)
  ]

  const Part9: seq<Block> := [
    Block("Inscriptional Parthian", 0x10B40, 0x10B5F),
    Block("Inscriptional Pahlavi", 0x10B60, 0x10B7F),
    Block("Old Turkic", 0x10C00, 0x10C4F),
    Block("Rumi Numeral Symbols", 0x10E60, 0x10E7F),
    Block("Brahmi", 0x11000, 0x1107F),
    Block("Kaithi", 0x11080, 0x110CF),
    Block("Sora Sompeng", 0x110D0, 0x110FF),
    Block("Chakma", 0x11100, 0x1114F),
    Block("Sharada", 0x11180, 0x111DF),
    Block("Takri", 0x11680, 0x116CF),
    Block("Cuneiform", 0x12000, 0x123FF),
    Block("Cuneiform Numbers and Punctuation", 0x12400, 0x1247F),
    Block("Egyptian Hieroglyphs", 0x13000, 0x1342F),
    Block("Bamum Supplement", 0x16800, 0x16A3F),
    Block("Miao", 0x16F00, 0x16F9F),
    Block("Kana Supplement", 0x1B000, 0x1B0FF),
    Block("Byzantine Musical Symbols", 0x1D000, 0x1D0FF),
    Block("Musical Symbols", 0x1D100, 0x1D1FF),
    Block("Ancient Greek Musical Notation", 0x1D200, 0x1D24F),
    Block("Tai Xuan Jing Symbols", 0x1D300, 0x1D35F)
  ]

  const Part10: seq<Block> := [
    Block("Counting Rod Numerals", 0x1D360, 0x1D37F),
    Block("Mathematical Alphanumeric Symbols", 0x1D400, 0x1D7FF),
    Block("Arabic Mathematical Alphabetic Symbols", 0x1EE00, 0x1EEFF),
    Block("Mahjong Tiles", 0x1F000, 0x1F02F),
    Block("Domino Tiles", 0x1F030, 0x1F09F),
    Block("Playing Cards", 0x1F0A0, 0x1F0FF),
    Block("Enclosed Alphanumeric Supplement", 0x1F100, 0x1F1FF),
    Block("Enclosed Ideographic Supplement", 0x1F200, 0x1F2FF),
    Block("Miscellaneous Symbols and Pictographs", 0x1F300, 0x1F5FF),
    Block("Emoticons", 0x1F600, 0x1F64F),
    Block("Transport and Map Symbols", 0x1F680, 0x1F6FF),
    Block("Alchemical Symbols", 0x1F700, 0x1F77F),
    Block("CJK Unified Ideographs Extension B", 0x20000, 0x2A6DF),
    Block("CJK Unified Ideographs Extension C", 0x2A700, 0x2B73F),
    Block("CJK Unified Ideographs Extension D", 0x2B740, 0x2B81F),
    Block("CJK Compatibility Ideographs Supplement", 0x2F800, 0x2FA1F),
    Block("Tags", 0xE0000, 0xE007F),
    Block("Variation Selectors Supplement", 0xE0100, 0xE01EF),
    Block("Supplementary Private Use Area", 0xF0000, 0xFFFFF),
    Block("Supplementary Private Use Area-B", 0x100000, 0x10FFFF)
  ]

  /** Rows 0 to 119 and rows 120 to 219. */
  const Lower: seq<Block> := Part0 + Part1 + Part2 + Part3 + Part4 + Part5
  const Upper: seq<Block> := Part6 + Part7 + Part8 + Part9 + Part10

  const UnicodeBlocks: seq<Block> := Lower + Upper

  /** Neighbour-by-neighbour form of `Ordered` from index `i` on; it evaluates on a
      literal table. */
  predicate Chained(t: seq<Block>, i: nat)
    decreases |t| - i
  {
    i >= |t| ||
    (t[i].first <= t[i].last && (i + 1 < |t| ==> t[i].last < t[i + 1].first) && Chained(t, i + 1))
  }

  lemma {:induction false} ChainedOrdered(t: seq<Block>, i: nat)
    requires Chained(t, i)
    ensures forall j :: i <= j < |t| ==> t[j].first <= t[j].last
    ensures forall j, k :: i <= j < k < |t| ==> t[j].last < t[k].first
    decreases |t| - i
  {
    if i < |t| {
      ChainedOrdered(t, i + 1);
    }
  }

  lemma {:induction false} ChainedShift(a: seq<Block>, b: seq<Block>, j: nat)
    requires Chained(b, j)
    ensures Chained(a + b, |a| + j)
    decreases |b| - j
  {
    if j < |b| {
      ChainedShift(a, b, j + 1);
      assert (a + b)[|a| + j] == b[j];
      if j + 1 < |b| { assert (a + b)[|a| + j + 1] == b[j + 1]; }
    }
  }

  lemma {:induction false} ChainedJoin(a: seq<Block>, b: seq<Block>, i: nat)
    requires i <= |a| && Chained(a, i) && Chained(a + b, |a|)
    requires |a| > 0 && |b| > 0 ==> a[|a| - 1].last < b[0].first
    ensures Chained(a + b, i)
    decreases |a| - i
  {
    if i < |a| {
      ChainedJoin(a, b, i + 1);
      assert (a + b)[i] == a[i];
      if i + 1 < |a| { assert (a + b)[i + 1] == a[i + 1]; }
      else if |b| > 0 { assert (a + b)[i + 1] == b[0]; }
    }
  }

  /** Two chained tables whose boundary is in order concatenate to a chained table. */
  lemma ChainedAppend(a: seq<Block>, b: seq<Block>)
    requires Chained(a, 0) && Chained(b, 0)
    requires |a| > 0 && |b| > 0 ==> a[|a| - 1].last < b[0].first
    ensures Chained(a + b, 0)
  {
    ChainedShift(a, b, 0);
    ChainedJoin(a, b, 0);
  }

  lemma Part0Chained()
    ensures Chained(Part0, 0) && |Part0| == 20
    ensures Part0[0].first == 0x0000 && Part0[19].last == 0x08FF
  {
    assert Chained(Part0, 19);
    assert Chained(Part0, 18);
    assert Chained(Part0, 17);
    assert Chained(Part0, 16);
    assert Chained(Part0, 15);
    assert Chained(Part0, 14);
    assert Chained(Part0, 13);
    assert Chained(Part0, 12);
    assert Chained(Part0, 11);
    assert Chained(Part0, 10);
    assert Chained(Part0, 9);
    assert Chained(Part0, 8);
    assert Chained(Part0, 7);
    assert Chained(Part0, 6);
    assert Chained(Part0, 5);
    assert Chained(Part0, 4);
    assert Chained(Part0, 3);
    assert Chained(Part0, 2);
    assert Chained(Part0, 1);
    assert Chained(Part0, 0);
  }

  lemma Part1Chained()
    ensures Chained(Part1, 0) && |Part1| == 20
    ensures Part1[0].first == 0x0900 && Part1[19].last == 0x167F
  {
    assert Chained(Part1, 19);
    assert Chained(Part1, 18);
    assert Chained(Part1, 17);
    assert Chained(Part1, 16);
    assert Chained(Part1, 15);
    assert Chained(Part1, 14);
    assert Chained(Part1, 13);
    assert Chained(Part1, 12);
    assert Chained(Part1, 11);
    assert Chained(Part1, 10);
    assert Chained(Part1, 9);
    assert Chained(Part1, 8);
    assert Chained(Part1, 7);
    assert Chained(Part1, 6);
    assert Chained(Part1, 5);
    assert Chained(Part1, 4);
    assert Chained(Part1, 3);
    assert Chained(Part1, 2);
    assert Chained(Part1, 1);
    assert Chained(Part1, 0);
  }

  lemma Part2Chained()
    ensures Chained(Part2, 0) && |Part2| == 20
    ensures Part2[0].first == 0x1680 && Part2[19].last == 0x1C7F
  {
    assert Chained(Part2, 19);
    assert Chained(Part2, 18);
    assert Chained(Part2, 17);
    assert Chained(Part2, 16);
    assert Chained(Part2, 15);
    assert Chained(Part2, 14);
    assert Chained(Part2, 13);
    assert Chained(Part2, 12);
    assert Chained(Part2, 11);
    assert Chained(Part2, 10);
    assert Chained(Part2, 9);
    assert Chained(Part2, 8);
    assert Chained(Part2, 7);
    assert Chained(Part2, 6);
    assert Chained(Part2, 5);
    assert Chained(Part2, 4);
    assert Chained(Part2, 3);
    assert Chained(Part2, 2);
    assert Chained(Part2, 1);
    assert Chained(Part2, 0);
  }

  lemma Part3Chained()
    ensures Chained(Part3, 0) && |Part3| == 20
    ensures Part3[0].first == 0x1CC0 && Part3[19].last == 0x257F
  {
    assert Chained(Part3, 19);
    assert Chained(Part3, 18);
    assert Chained(Part3, 17);
    assert Chained(Part3, 16);
    assert Chained(Part3, 15);
    assert Chained(Part3, 14);
    assert Chained(Part3, 13);
    assert Chained(Part3, 12);
    assert Chained(Part3, 11);
    assert Chained(Part3, 10);
    assert Chained(Part3, 9);
    assert Chained(Part3, 8);
    assert Chained(Part3, 7);
    assert Chained(Part3, 6);
    assert Chained(Part3, 5);
    assert Chained(Part3, 4);
    assert Chained(Part3, 3);
    assert Chained(Part3, 2);
    assert Chained(Part3, 1);
    assert Chained(Part3, 0);
  }

  lemma Part4Chained()
    ensures Chained(Part4, 0) && |Part4| == 20
    ensures Part4[0].first == 0x2580 && Part4[19].last == 0x2EFF
  {
    assert Chained(Part4, 19);
    assert Chained(Part4, 18);
    assert Chained(Part4, 17);
    assert Chained(Part4, 16);
    assert Chained(Part4, 15);
    assert Chained(Part4, 14);
    assert Chained(Part4, 13);
    assert Chained(Part4, 12);
    assert Chained(Part4, 11);
    assert Chained(Part4, 10);
    assert Chained(Part4, 9);
    assert Chained(Part4, 8);
    assert Chained(Part4, 7);
    assert Chained(Part4, 6);
    assert Chained(Part4, 5);
    assert Chained(Part4, 4);
    assert Chained(Part4, 3);
    assert Chained(Part4, 2);
    assert Chained(Part4, 1);
    assert Chained(Part4, 0);
  }

  lemma Part5Chained()
    ensures Chained(Part5, 0) && |Part5| == 20
    ensures Part5[0].first == 0x2F00 && Part5[19].last == 0xA63F
  {
    assert Chained(Part5, 19);
    assert Chained(Part5, 18);
    assert Chained(Part5, 17);
    assert Chained(Part5, 16);
    assert Chained(Part5, 15);
    assert Chained(Part5, 14);
    assert Chained(Part5, 13);
    assert Chained(Part5, 12);
    assert Chained(Part5, 11);
    assert Chained(Part5, 10);
    assert Chained(Part5, 9);
    assert Chained(Part5, 8);
    assert Chained(Part5, 7);
    assert Chained(Part5, 6);
    assert Chained(Part5, 5);
    assert Chained(Part5, 4);
    assert Chained(Part5, 3);
    assert Chained(Part5, 2);
    assert Chained(Part5, 1);
    assert Chained(Part5, 0);
  }

  lemma Part6Chained()
    ensures Chained(Part6, 0) && |Part6| == 20
    ensures Part6[0].first == 0xA640 && Part6[19].last == 0xD7AF
  {
    assert Chained(Part6, 19);
    assert Chained(Part6, 18);
    assert Chained(Part6, 17);
    assert Chained(Part6, 16);
    assert Chained(Part6, 15);
    assert Chained(Part6, 14);
    assert Chained(Part6, 13);
    assert Chained(Part6, 12);
    assert Chained(Part6, 11);
    assert Chained(Part6, 10);
    assert Chained(Part6, 9);
    assert Chained(Part6, 8);
    assert Chained(Part6, 7);
    assert Chained(Part6, 6);
    assert Chained(Part6, 5);
    assert Chained(Part6, 4);
    assert Chained(Part6, 3);
    assert Chained(Part6, 2);
    assert Chained(Part6, 1);
    assert Chained(Part6, 0);
  }

  lemma Part7Chained()
    ensures Chained(Part7, 0) && |Part7| == 20
    ensures Part7[0].first == 0xD7B0 && Part7[19].last == 0x1018F
  {
    assert Chained(Part7, 19);
    assert Chained(Part7, 18);
    assert Chained(Part7, 17);
    assert Chained(Part7, 16);
    assert Chained(Part7, 15);
    assert Chained(Part7, 14);
    assert Chained(Part7, 13);
    assert Chained(Part7, 12);
    assert Chained(Part7, 11);
    assert Chained(Part7, 10);
    assert Chained(Part7, 9);
    assert Chained(Part7, 8);
    assert Chained(Part7, 7);
    assert Chained(Part7, 6);
    assert Chained(Part7, 5);
    assert Chained(Part7, 4);
    assert Chained(Part7, 3);
    assert Chained(Part7, 2);
    assert Chained(Part7, 1);
    assert Chained(Part7, 0);
  }

  lemma Part8Chained()
    ensures Chained(Part8, 0) && |Part8| == 20
    ensures Part8[0].first == 0x10190 && Part8[19].last == 0x10B3F
  {
    assert Chained(Part8, 19);
    assert Chained(Part8, 18);
    assert Chained(Part8, 17);
    assert Chained(Part8, 16);
    assert Chained(Part8, 15);
    assert Chained(Part8, 14);
    assert Chained(Part8, 13);
    assert Chained(Part8, 12);
    assert Chained(Part8, 11);
    assert Chained(Part8, 10);
    assert Chained(Part8, 9);
    assert Chained(Part8, 8);
    assert Chained(Part8, 7);
    assert Chained(Part8, 6);
    assert Chained(Part8, 5);
    assert Chained(Part8, 4);
    assert Chained(Part8, 3);
    assert Chained(Part8, 2);
    assert Chained(Part8, 1);
    assert Chained(Part8, 0);
  }

  lemma Part9Chained()
    ensures Chained(Part9, 0) && |Part9| == 20
    ensures Part9[0].first == 0x10B40 && Part9[19].last == 0x1D35F
  {
    assert Chained(Part9, 19);
    assert Chained(Part9, 18);
    assert Chained(Part9, 17);
    assert Chained(Part9, 16);
    assert Chained(Part9, 15);
    assert Chained(Part9, 14);
    assert Chained(Part9, 13);
    assert Chained(Part9, 12);
    assert Chained(Part9, 11);
    assert Chained(Part9, 10);
    assert Chained(Part9, 9);
    assert Chained(Part9, 8);
    assert Chained(Part9, 7);
    assert Chained(Part9, 6);
    assert Chained(Part9, 5);
    assert Chained(Part9, 4);
    assert Chained(Part9, 3);
    assert Chained(Part9, 2);
    assert Chained(Part9, 1);
    assert Chained(Part9, 0);
  }

  lemma Part10Chained()
    ensures Chained(Part10, 0) && |Part10| == 20
    ensures Part10[0].first == 0x1D360 && Part10[19].last == 0x10FFFF
  {
    assert Chained(Part10, 19);
    assert Chained(Part10, 18);
    assert Chained(Part10, 17);
    assert Chained(Part10, 16);
    assert Chained(Part10, 15);
    assert Chained(Part10, 14);
    assert Chained(Part10, 13);
    assert Chained(Part10, 12);
    assert Chained(Part10, 11);
    assert Chained(Part10, 10);
    assert Chained(Part10, 9);
    assert Chained(Part10, 8);
    assert Chained(Part10, 7);
    assert Chained(Part10, 6);
    assert Chained(Part10, 5);
    assert Chained(Part10, 4);
    assert Chained(Part10, 3);
    assert Chained(Part10, 2);
    assert Chained(Part10, 1);
    assert Chained(Part10, 0);
  }

  lemma LowerChained()
    ensures Chained(Lower, 0) && |Lower| == 120 && Lower[0].first == 0 && Lower[119].last == 0xA63F
  {
    Part0Chained();
    Part1Chained();
    ChainedAppend(Part0, Part1);
    Part2Chained();
    ChainedAppend(Part0 + Part1, Part2);
    Part3Chained();
    ChainedAppend(Part0 + Part1 + Part2, Part3);
    Part4Chained();
    ChainedAppend(Part0 + Part1 + Part2 + Part3, Part4);
    Part5Chained();
    ChainedAppend(Part0 + Part1 + Part2 + Part3 + Part4, Part5);
  }

  lemma UpperChained()
    ensures Chained(Upper, 0) && |Upper| == 100 && Upper[0].first == 0xA640 && Upper[99].last == 0x10FFFF
  {
    Part6Chained();
    Part7Chained();
    ChainedAppend(Part6, Part7);
    Part8Chained();
    ChainedAppend(Part6 + Part7, Part8);
    Part9Chained();
    ChainedAppend(Part6 + Part7 + Part8, Part9);
    Part10Chained();
    ChainedAppend(Part6 + Part7 + Part8 + Part9, Part10);
  }

  /** The table as written: 220 entries, each with `start <= end`, strictly increasing and
      pairwise disjoint, all within 0..0x10FFFF. */
  lemma TableShape()
    ensures |UnicodeBlocks| == 220 && WellFormed(UnicodeBlocks)
  {
    LowerChained();
    UpperChained();
    ChainedAppend(Lower, Upper);
    ChainedOrdered(UnicodeBlocks, 0);
  }

  /** The table jumps from Mandaic (ending at U+085F) to Arabic Extended-A (starting at
      U+08A0): code points in between are reported as "Non Unicode Glyphs". */
  lemma MandaicGap()
    ensures BlockOf(UnicodeBlocks, 0x085F) == 18
    ensures BlockName(UnicodeBlocks, 18) == "Mandaic"
    ensures forall c :: 0x0860 <= c <= 0x089F ==> BlockOf(UnicodeBlocks, c) == -1
  {
    TableShape();
    assert UnicodeBlocks[18] == Part0[18] && UnicodeBlocks[19] == Part0[19];
    RangeTestAgrees(UnicodeBlocks, 18, 0x085F);
    forall c | 0x0860 <= c <= 0x089F
      ensures BlockOf(UnicodeBlocks, c) == -1
    {
      BetweenBlocks(UnicodeBlocks, 18, c);
    }
  }

  // ------------------------------------------------------------ group names

  /** No entry of `t` carries the given name. */
  predicate NoneNamed(t: seq<Block>, name: string) {
    forall r :: r in t ==> r.name != name
  }

  lemma NoneNamedAppend(a: seq<Block>, b: seq<Block>, name: string)
    requires NoneNamed(a, name) && NoneNamed(b, name)
    ensures NoneNamed(a + b, name)
  {
  }

  lemma Part0Unnamed()
    ensures NoneNamed(Part0, "Non Unicode Glyphs")
  {
  }

  lemma Part1Unnamed()
    ensures NoneNamed(Part1, "Non Unicode Glyphs")
  {
  }

  lemma Part2Unnamed()
    ensures NoneNamed(Part2, "Non Unicode Glyphs")
  {
  }

  lemma Part3Unnamed()
    ensures NoneNamed(Part3, "Non Unicode Glyphs")
  {
  }

  lemma Part4Unnamed()
    ensures NoneNamed(Part4, "Non Unicode Glyphs")
  {
  }

  lemma Part5Unnamed()
    ensures NoneNamed(Part5, "Non Unicode Glyphs")
  {
  }

  lemma Part6Unnamed()
    ensures NoneNamed(Part6, "Non Unicode Glyphs")
  {
  }

  lemma Part7Unnamed()
    ensures NoneNamed(Part7, "Non Unicode Glyphs")
  {
  }

  lemma Part8Unnamed()
    ensures NoneNamed(Part8, "Non Unicode Glyphs")
  {
  }

  lemma Part9Unnamed()
    ensures NoneNamed(Part9, "Non Unicode Glyphs")
  {
  }

  lemma Part10Unnamed()
    ensures NoneNamed(Part10, "Non Unicode Glyphs")
  {
  }

  lemma LowerUnnamed()
    ensures NoneNamed(Lower, "Non Unicode Glyphs")
  {
    var n := "Non Unicode Glyphs";
    Part0Unnamed();
    Part1Unnamed();
    Part2Unnamed();
    Part3Unnamed();
    Part4Unnamed();
    Part5Unnamed();
    NoneNamedAppend(Part0, Part1, n);
    NoneNamedAppend(Part0 + Part1, Part2, n);
    NoneNamedAppend(Part0 + Part1 + Part2, Part3, n);
    NoneNamedAppend(Part0 + Part1 + Part2 + Part3, Part4, n);
    NoneNamedAppend(Part0 + Part1 + Part2 + Part3 + Part4, Part5, n);
  }

  lemma UpperUnnamed()
    ensures NoneNamed(Upper, "Non Unicode Glyphs")
  {
    var n := "Non Unicode Glyphs";
    Part6Unnamed();
    Part7Unnamed();
    Part8Unnamed();
    Part9Unnamed();
    Part10Unnamed();
    NoneNamedAppend(Part6, Part7, n);
    NoneNamedAppend(Part6 + Part7, Part8, n);
    NoneNamedAppend(Part6 + Part7 + Part8, Part9, n);
    NoneNamedAppend(Part6 + Part7 + Part8 + Part9, Part10, n);
  }

  /** No block of the table is called "Non Unicode Glyphs". */
  lemma TableNamesUnused()
    ensures NoneNamed(UnicodeBlocks, "Non Unicode Glyphs")
  {
    LowerUnnamed();
    UpperUnnamed();
    NoneNamedAppend(Lower, Upper, "Non Unicode Glyphs");
  }

  /** With the script's table a header names the synthetic group exactly when no block
      was found, so the header alone tells the two kinds of group apart. */
  lemma BlockNameIdentifiesGroup(b: int)
    requires b == -1 || 0 <= b < |UnicodeBlocks|
    ensures BlockName(UnicodeBlocks, b) == "Non Unicode Glyphs" <==> b == -1
  {
    if b != -1 {
      TableNamesUnused();
      assert UnicodeBlocks[b] in UnicodeBlocks;
    }
  }
}
