# enumerateGlyphs, modelled in Dafny

`fonts/Tables/enumerateGlyphs.py` lists the glyphs of a set of fonts, grouped by Unicode
block. For every font it prints a `=== name ===` line and then walks the font's glyphs in
the order the font library gives them:

- a glyph that does not belong to the open group starts a new one: the open chunk is
  closed, a `Total: n glyphs.` line is printed if the group held more than one glyph,
  and an empty line and a `** block name **` header follow;
- consecutive code points inside a block are collected into a chunk, printed as
  `U+XXXXXX-U+YYYYYY (N glyphs)`;
- glyphs without a code point (code point `-1`) are listed under
  `** Non Unicode Glyphs **`, separated by `, `;
- at the end of a font the open chunk is closed and one empty line is printed.

The project models:

- the 220-entry block table `UnicodeBlocks`, verbatim;
- the first-match classifier `getCurrentBlock`;
- the display name `getGlyphName` and the `%06X` and `%d` conversions it relies on;
- `openChunk` and `closeChunk`;
- the glyph loop and the font loop.

Standard output is an output buffer, `out: seq<string>`. Each `print(x)` appends `x + "\n"`;
`print(x, end="")` appends `x` alone. The font library is replaced by the glyph sequence
each font yields.

Files:

- `options.dfy`: the `Option` type.
- `format.dfy` (module `Format`): `%X`, `%06X` and `%d` as functions on numerals, with
  their parsers and round-trip lemmas.
- `glyphs.dfy` (module `Glyphs`): the glyph record and `GetGlyphName`.
- `blocks.dfy` (module `Blocks`):
  - the table, the classifier, and the lemmas about the table's shape;
  - the classifier is stated for any table `t` that is well-formed (ranges ordered and
    disjoint within the Unicode code space);
  - `TableShape` proves that the script's own table is such a table.
- `report.dfy` (module `Report`):
  - `Step`, `Run` and `FontOutput`: one loop iteration, a glyph sequence and a font, as
    functions from a `State` (the four globals `currentBlock`, `previousGlyph`,
    `chunkStart`, `glyphCount`) to the next state and the printed fragments;
  - the class `ReportWriter`, which owns those globals and the output buffer; its methods
    are proved to do what the functions say.
- `report_props.dfy` (module `ReportProperties`): what the output means. It covers:
  - when headers appear;
  - what chunk counts are;
  - how the "Non Unicode Glyphs" group behaves;
  - how glyphs are counted and when totals are printed;
  - that a font's report depends on its glyphs alone.
- `driver.dfy` (module `Enumerate`): the loop over fonts, proved to print the
  concatenation of the fonts' reports.

The model follows the script where a natural reading of its purpose would differ:

- The last group of a font never gets a `Total:` line, only the final `closeChunk` and
  an empty line. So a font with glyphs U+0041..U+0043 prints
  `U+000041-U+000043 (3 glyphs)` and no total (`FontTotals`).
- A one-glyph chunk closes with a newline (`closeChunk` always ends the line).
- `glyphCount` is not reset when a font starts; it is only reset at the first header of
  the font, before it is ever read (`FontOutputIndependent`).
- A glyph without a code point inside a real block always opens a new group
  (`NoCodePointLeavesBlock`).
- A "Non Unicode Glyphs" group opened by a code point outside every block, and continued
  by glyphs without a code point, closes with a count of `-c`. That count is zero or
  negative (`GapGroupCount`).

## Model

| member | source | states |
|---|---|---|
| Format.Hex06RoundTrip | fonts/Tables/enumerateGlyphs.py:267 | `%06X` prints only hexadecimal digits, at least six, and they denote the number printed. It prints exactly six exactly when the number is below 16^6. |
| Format.Hex06Inverse | fonts/Tables/enumerateGlyphs.py:267 | Every six-digit upper-case hexadecimal string is what `%06X` prints for its value. |
| Format.DecimalRoundTrip | fonts/Tables/enumerateGlyphs.py:285-286 | `%d` reads back as the integer printed, negative integers included. |
| Glyphs.GetGlyphName | fonts/Tables/enumerateGlyphs.py:263-267 | For code point -1 the result is the raw glyph name. Otherwise it is "U+" followed by hexadecimal digits denoting the code point. It is 8 characters long exactly when the code point is below 16^6, so for every Unicode code point. |
| Glyphs.GlyphNameRoundTrip | fonts/Tables/enumerateGlyphs.py:263-267 | The display name of a code point parses back to that code point. |
| Glyphs.CodePointNameInverse | fonts/Tables/enumerateGlyphs.py:263-267 | Every well-formed `U+XXXXXX` string is the display name of the code point it denotes. |
| Blocks.FirstBlockFrom | fonts/Tables/enumerateGlyphs.py:254-261 | The search from entry `i` returns the first entry at or after `i` containing the code point, or -1 when none does. |
| Blocks.BlockOf | fonts/Tables/enumerateGlyphs.py:254-261 | Returns -1, or an index whose range contains the code point and before which no entry contains it. It returns -1 exactly when no entry contains it. |
| Blocks.GetCurrentBlock | fonts/Tables/enumerateGlyphs.py:254-261 | The counting loop returns the first matching index, or -1, and agrees with `BlockOf`. |
| Blocks.AtMostOneBlock | fonts/Tables/enumerateGlyphs.py:25-246 | In an ordered table no two entries contain the same code point. |
| Blocks.RangeTestAgrees | fonts/Tables/enumerateGlyphs.py:302-305 | The loop's test "still inside the current block's range" holds exactly when the classifier returns that block. |
| Blocks.OutsideCodeSpace | fonts/Tables/enumerateGlyphs.py:254-261 | Code point -1, or anything outside 0..0x10FFFF, is classified -1. |
| Blocks.BetweenBlocks | fonts/Tables/enumerateGlyphs.py:254-261 | A code point strictly between two neighbouring entries is classified -1. |
| Blocks.Part0Chained | fonts/Tables/enumerateGlyphs.py:26-45 | Rows 1-20 of the table are ordered and disjoint, from U+0000 to U+08FF. |
| Blocks.Part1Chained | fonts/Tables/enumerateGlyphs.py:46-65 | Rows 21-40 are ordered and disjoint, from U+0900 to U+167F. |
| Blocks.Part2Chained | fonts/Tables/enumerateGlyphs.py:66-85 | Rows 41-60 are ordered and disjoint, from U+1680 to U+1C7F. |
| Blocks.Part3Chained | fonts/Tables/enumerateGlyphs.py:86-105 | Rows 61-80 are ordered and disjoint, from U+1CC0 to U+257F. |
| Blocks.Part4Chained | fonts/Tables/enumerateGlyphs.py:106-125 | Rows 81-100 are ordered and disjoint, from U+2580 to U+2EFF. |
| Blocks.Part5Chained | fonts/Tables/enumerateGlyphs.py:126-145 | Rows 101-120 are ordered and disjoint, from U+2F00 to U+A63F. |
| Blocks.Part6Chained | fonts/Tables/enumerateGlyphs.py:146-165 | Rows 121-140 are ordered and disjoint, from U+A640 to U+D7AF. |
| Blocks.Part7Chained | fonts/Tables/enumerateGlyphs.py:166-185 | Rows 141-160 are ordered and disjoint, from U+D7B0 to U+1018F. |
| Blocks.Part8Chained | fonts/Tables/enumerateGlyphs.py:186-205 | Rows 161-180 are ordered and disjoint, from U+10190 to U+10B3F. |
| Blocks.Part9Chained | fonts/Tables/enumerateGlyphs.py:206-225 | Rows 181-200 are ordered and disjoint, from U+10B40 to U+1D35F. |
| Blocks.Part10Chained | fonts/Tables/enumerateGlyphs.py:226-245 | Rows 201-220 are ordered and disjoint, from U+1D360 to U+10FFFF. |
| Blocks.LowerChained | fonts/Tables/enumerateGlyphs.py:26-145 | The first 120 rows are ordered and disjoint, from U+0000 to U+A63F. |
| Blocks.UpperChained | fonts/Tables/enumerateGlyphs.py:146-245 | The last 100 rows are ordered and disjoint, from U+A640 to U+10FFFF. |
| Blocks.TableShape | fonts/Tables/enumerateGlyphs.py:25-246 | The table has 220 entries. Each has start <= end, and the ranges are strictly increasing and disjoint within 0..0x10FFFF. |
| Blocks.MandaicGap | fonts/Tables/enumerateGlyphs.py:44-45 | U+085F is in Mandaic. U+0860..U+089F, between Mandaic and Arabic Extended-A, belong to no block. |
| Blocks.TableNamesUnused | fonts/Tables/enumerateGlyphs.py:25-246 | No entry of the table is named "Non Unicode Glyphs". |
| Blocks.BlockNameIdentifiesGroup | fonts/Tables/enumerateGlyphs.py:314-317 | With the script's table, a header reads "Non Unicode Glyphs" exactly when no block was found (group -1). |
| Report.CloseChunkOut | fonts/Tables/enumerateGlyphs.py:278-286 | `closeChunk` prints nothing exactly when no glyph has been seen, and otherwise one fragment. |
| Report.HeaderStepAppends | fonts/Tables/enumerateGlyphs.py:302-322 | The header branch leaves the glyph's block open, with the glyph as previous glyph and chunk start and a count of one. It prints the chunk end, the total, an empty line, the header named after the block (or "Non Unicode Glyphs" for -1), then the glyph's name. |
| Report.Step | fonts/Tables/enumerateGlyphs.py:301-338 | One iteration keeps the loop invariant: a group is open exactly when there is a previous glyph, and a real block's chunk lies inside the block. The glyph becomes `previousGlyph`. |
| Report.Run | fonts/Tables/enumerateGlyphs.py:301-338 | The loop keeps the invariant. The last glyph becomes `previousGlyph`, and no glyph prints nothing. |
| Report.FontOutput | fonts/Tables/enumerateGlyphs.py:289-341 | A font leaves the state invariant. |
| Report.ReportWriter.constructor | fonts/Tables/enumerateGlyphs.py:296-298 | The globals start with no group, no previous glyph and chunk start -1, and the output is empty. |
| Report.ReportWriter.OpenChunk | fonts/Tables/enumerateGlyphs.py:269-276 | Sets `chunkStart` and `previousGlyph` to the glyph and appends its display name without a newline; nothing else changes. |
| Report.ReportWriter.CloseChunk | fonts/Tables/enumerateGlyphs.py:278-286 | Changes no global and appends what `CloseChunkOut` says. |
| Report.ReportWriter.LeaveGroup | fonts/Tables/enumerateGlyphs.py:308-310 | Closes the chunk, then prints the total only for an open group of more than one glyph. |
| Report.ReportWriter.StartGroup | fonts/Tables/enumerateGlyphs.py:302-322 | The header branch moves the globals and the output exactly as `Step` does, keeping the invariant. |
| Report.ReportWriter.ProcessGlyph | fonts/Tables/enumerateGlyphs.py:301-338 | One loop iteration moves the globals and the output exactly as `Step` does, keeping the invariant. |
| Report.ReportWriter.ProcessFont | fonts/Tables/enumerateGlyphs.py:289-341 | One font: the globals end as `FontOutput` says, and the output grows by exactly the font's report. |
| ReportProperties.HeaderWhenNeeded | fonts/Tables/enumerateGlyphs.py:302-319 | When the loop's transition test holds, the glyph's output contains an empty line followed by a `** name **` header. |
| ReportProperties.NoHeaderOtherwise | fonts/Tables/enumerateGlyphs.py:324-338 | The other three branches print no header line. |
| ReportProperties.HeaderExactlyOnTransition | fonts/Tables/enumerateGlyphs.py:302-319 | A header is printed if and only if one of three things holds: no group is open; the open group is a real block whose classification differs from the glyph's; or the open group is "Non Unicode Glyphs" and the glyph has a code point. |
| ReportProperties.NoCodePointLeavesBlock | fonts/Tables/enumerateGlyphs.py:302-305 | A glyph without a code point after a real block always opens a "Non Unicode Glyphs" header. |
| ReportProperties.GapCodePointOpensGroup | fonts/Tables/enumerateGlyphs.py:302-321 | A code point outside every block always opens a fresh "Non Unicode Glyphs" group whose chunk starts at that code point, whatever group was open. |
| ReportProperties.ChunkGrowsByOne | fonts/Tables/enumerateGlyphs.py:324-338 | Inside a real block, a step without header keeps the group and counts the glyph. It either extends the chunk by exactly one code point or restarts it at the glyph. |
| ReportProperties.ConsecutiveStep | fonts/Tables/enumerateGlyphs.py:324-328 | The next code point inside the open block is absorbed silently. |
| ReportProperties.ConsecutiveRun | fonts/Tables/enumerateGlyphs.py:324-328 | A stretch of consecutive code points inside the open block prints nothing and only moves `previousGlyph` and the count. |
| ReportProperties.ChunkCountIsRunLength | fonts/Tables/enumerateGlyphs.py:278-286 | A one-glyph chunk closes with a newline. A chunk of consecutive code points closes with `-NAME (N glyphs)`, where N is the number of glyphs in it (at least two). |
| ReportProperties.NonUnicodeRun | fonts/Tables/enumerateGlyphs.py:330-334 | In the "Non Unicode Glyphs" group, each glyph without a code point appends `, name` to the open line, and the chunk start does not move. |
| ReportProperties.NonUnicodeTail | fonts/Tables/enumerateGlyphs.py:278-286 | A group started at code point c and continued only by glyphs without a code point closes with `-name (-c glyphs)`. |
| ReportProperties.GapGroupCount | fonts/Tables/enumerateGlyphs.py:282-286 | A group opened by a gap code point c and followed by glyphs without a code point prints their names and closes with a count of -c, which is never positive. |
| ReportProperties.HeaderStepTotals | fonts/Tables/enumerateGlyphs.py:308-310 | A header step prints a `Total:` line exactly when a group was open and held more than one glyph, and that line is `Total: n glyphs.` for the current `glyphCount` n. |
| ReportProperties.OtherStepTotals | fonts/Tables/enumerateGlyphs.py:324-338 | No other step prints a `Total:` line. |
| ReportProperties.GroupSizesSum | fonts/Tables/enumerateGlyphs.py:311-338 | The group sizes used by the totals lemmas partition the glyphs: a new group at each header, one more glyph per other step, adding up to the number of glyphs. |
| ReportProperties.CountIsOpenGroup | fonts/Tables/enumerateGlyphs.py:311-338 | `glyphCount` is the size of the group still open, so it is the number the next `Total:` line shows. |
| ReportProperties.StepCounts | fonts/Tables/enumerateGlyphs.py:311-338 | Every path of the loop body counts the glyph once: a header step restarts the count at one, any other step adds one. |
| ReportProperties.LeavingPrintsGroupSize | fonts/Tables/enumerateGlyphs.py:308-310 | When a glyph leaves a group of k glyphs, the step prints `Total: k glyphs.` if k > 1, and no `Total:` line otherwise. |
| ReportProperties.RunTotals | fonts/Tables/enumerateGlyphs.py:301-338 | The `Total:` lines the loop prints are exactly, in order, `Total: k glyphs.` for each group it has left whose size k is more than one. The open group has none yet. |
| ReportProperties.FontTotals | fonts/Tables/enumerateGlyphs.py:289-341 | The `Total:` lines of a font's report are exactly, in order, `Total: k glyphs.` for each group size k > 1 other than the last group's. The last group never gets one. |
| ReportProperties.FontOutputIndependent | fonts/Tables/enumerateGlyphs.py:296-298 | After the reset, a font's report is the same whatever state the previous fonts left. |
| ReportProperties.EmptyFont | fonts/Tables/enumerateGlyphs.py:289-341 | A font without glyphs prints its delimiter line and one empty line. |
| Enumerate.EnumerateWith | fonts/Tables/enumerateGlyphs.py:289-341 | The font loop prints the fonts' reports one after the other, each as if it came first. |
| Enumerate.EnumerateGlyphs | fonts/Tables/enumerateGlyphs.py:289-341 | The same, with the script's own table, which is well-formed. |

## Left out

- Command-line parsing (fonts/Tables/enumerateGlyphs.py:249-252) and building the `.otf` path (line 293) are left out. Each font is a record of its name and its glyph sequence.
- The font library (`fontforge.open` and `font.glyphs()`, lines 22, 294 and 301) is left out. The glyphs are an input sequence with code points -1 or 0..0x10FFFF, taken in the given order. A font that fails to open, which aborts the script, is not modelled.
- Standard output is an output buffer of fragments, not bytes on a stream.
- Report.ReportWriter.constructor: sets `glyphCount` to 0. In the script the variable does not exist until the first header assigns it, and it is never read before that.
- Report.Step: takes the block table as a parameter `t`, like every member of `Report`, `ReportProperties` and `Blocks` except the table lemmas. `Enumerate.EnumerateGlyphs` supplies the script's own table.
- Glyphs.GetGlyphName: requires a code point of at least -1. `%06X` of a negative number other than -1 prints a minus sign, and the font library never reports such a code point.
- ReportProperties.RunTotals: assumes glyph names contain no newline. When a glyph opens a group its raw name is a fragment of its own, and one ending in a newline could look like a `Total:` line.
- ReportProperties.FontTotals: assumes glyph names contain no newline, for the same reason as `RunTotals`.
- ReportProperties.HeaderStepTotals: assumes the glyph's name contains no newline. In a header step a raw name is a fragment of its own, and one ending in a newline could look like a `Total:` line.
- ReportProperties.LeavingPrintsGroupSize: assumes the glyph's name contains no newline, for the same reason as `HeaderStepTotals`.
- ReportProperties.RunTotals: like every header and total lemma (`HeaderExactlyOnTransition`, `HeaderStepTotals`, `FontTotals` and the rest), it reasons about output fragments, one per `print` call, not about the text lines they form. A glyph without a code point whose raw name is `Total: 2 glyphs.` and which forms a chunk of its own prints that text as a line. These lemmas do not count that line, because its fragment has no newline.
- ReportProperties.GroupSizesSum: counts the groups of a font printed from the initial state. Each font starts there anyway (`FontOutputIndependent`).
