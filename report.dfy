/** The glyph report of fonts/Tables/enumerateGlyphs.py: the per-font loop that groups a
    font's glyphs by Unicode block and prints runs of consecutive code points.

    Printing is appending to an output buffer of fragments: `print(x)` appends `x + "\n"`,
    `print(x, end="")` appends `x`. The functions below describe one loop iteration
    (`Step`), a whole glyph sequence (`Run`) and one font (`FontOutput`); the class
    `ReportWriter` holds the script's module globals and its methods are proved to do what
    these functions say. The block table is a parameter `t`; the script's own table is
    `Blocks.UnicodeBlocks`, which the driver `EnumerateGlyphs` passes in. */
module Report {
  import opened Options
  import opened Format
  import opened Blocks
  import opened Glyphs

  /** The module globals `currentBlock`, `previousGlyph`, `chunkStart` and `glyphCount`.
      `currentBlock` is `None` before the first glyph of a font, then the open group: a
      table index or -1 for "Non Unicode Glyphs". */
  datatype State = State(currentBlock: Option<int>, previousGlyph: Option<Glyph>,
                         chunkStart: int, glyphCount: int)

  /** A font's glyphs, in the order the font library yields them. */
  datatype Font = Font(name: string, glyphs: seq<Glyph>)

  predicate AllValid(gs: seq<Glyph>) {
    forall i :: 0 <= i < |gs| ==> ValidGlyph(gs[i])
  }

  /** The states the loop can be in. Once a group is open there is a previous glyph and
      the group holds at least one glyph; in a real block the open chunk runs from
      `chunkStart` up to the previous glyph's code point, both inside the block. */
  predicate Inv(t: seq<Block>, s: State) {
    (s.currentBlock.Some? <==> s.previousGlyph.Some?) &&
    (s.previousGlyph.Some? ==> ValidGlyph(s.previousGlyph.value)) &&
    (s.currentBlock.Some? ==>
      var b, p := s.currentBlock.value, s.previousGlyph.value;
      s.glyphCount >= 1 &&
      (b == -1 ||
       (0 <= b < |t| && Contains(t[b], s.chunkStart) && Contains(t[b], p.unicode) &&
        s.chunkStart <= p.unicode)))
  }

  /** The state each font starts from; only `glyphCount` survives from the previous font. */
  function Reset(s: State): State
  {
    State(None, None, -1, s.glyphCount)
  }

  /** The state before the first font. */
  const Start: State := State(None, None, -1, 0)

  /** The test that opens a new group: no group yet, a real block the glyph's code point
      is outside of, or "Non Unicode Glyphs" and a glyph that has a code point. */
  predicate NeedsHeader(t: seq<Block>, s: State, g: Glyph)
    requires Inv(t, s)
  {
    s.currentBlock.None? ||
    (s.currentBlock.value >= 0 &&
     !(t[s.currentBlock.value].first <= g.unicode && g.unicode <= t[s.currentBlock.value].last)) ||
    (s.currentBlock.value == -1 && g.unicode != -1)
  }

  /** `"-%s (%d glyphs)"`, the end of a chunk of more than one glyph: the last glyph's
      name and the count `last - start + 1`, taken from the code points. */
  function ChunkEndLine(p: Glyph, start: int): string
    requires p.unicode >= -1
  {
    "-" + GetGlyphName(p) + " (" + Decimal(p.unicode - start + 1) + " glyphs)\n"
  }

  /** `"Total: %d glyphs."` */
  function TotalLine(n: int): string {
    "Total: " + Decimal(n) + " glyphs.\n"
  }

  /** `"** %s **"` */
  function HeaderLine(name: string): string {
    "** " + name + " **\n"
  }

  /** `"=== %s ==="` */
  function DelimiterLine(name: string): string {
    "=== " + name + " ===\n"
  }

  /** What `closeChunk` prints: nothing before the first glyph, a newline after a chunk of
      one code point, otherwise `-NAME (N glyphs)` with N computed from the code points. */
  function CloseChunkOut(s: State): (r: seq<string>)
    requires s.previousGlyph.Some? ==> s.previousGlyph.value.unicode >= -1
    ensures r == [] <==> s.previousGlyph.None?
    ensures |r| <= 1
  {
    match s.previousGlyph
    case None => []
    case Some(p) =>
      if s.chunkStart == p.unicode then ["\n"]
      else [ChunkEndLine(p, s.chunkStart)]
  }

  /** The `Total:` line printed when a group is left, if it held more than one glyph. */
  function TotalOut(s: State): seq<string> {
    if s.currentBlock.Some? && s.glyphCount > 1 then [TotalLine(s.glyphCount)]
    else []
  }

  /** An empty line and the `** name **` header of group `b`. */
  function HeaderOut(t: seq<Block>, b: int): seq<string>
    requires b == -1 || 0 <= b < |t|
  {
    ["\n", HeaderLine(BlockName(t, b))]
  }

  /** One iteration of the glyph loop: the next state and what it prints. */
  function Step(t: seq<Block>, s: State, g: Glyph): (r: (State, seq<string>))
    requires WellFormed(t) && Inv(t, s) && ValidGlyph(g)
    ensures Inv(t, r.0)
    ensures r.0.previousGlyph == Some(g)
  {
    if NeedsHeader(t, s, g) then
      var b := BlockOf(t, g.unicode);
      (State(Some(b), Some(g), g.unicode, 1),
       CloseChunkOut(s) + TotalOut(s) + HeaderOut(t, b) + [GetGlyphName(g)])
    else
      var p := s.previousGlyph.value;
      if p.unicode >= 0 && p.unicode + 1 == g.unicode then
        (s.(previousGlyph := Some(g), glyphCount := s.glyphCount + 1), [])
      else if g.unicode == -1 then
        (s.(previousGlyph := Some(g), glyphCount := s.glyphCount + 1), [", " + GetGlyphName(g)])
      else
        (s.(chunkStart := g.unicode, previousGlyph := Some(g), glyphCount := s.glyphCount + 1),
         CloseChunkOut(s) + [GetGlyphName(g)])
  }

  /** What a header step appends to a buffer, in the order the loop prints it. */
  lemma HeaderStepAppends(t: seq<Block>, s: State, g: Glyph, o: seq<string>)
    requires WellFormed(t) && Inv(t, s) && ValidGlyph(g) && NeedsHeader(t, s, g)
    ensures Step(t, s, g).0 == State(Some(BlockOf(t, g.unicode)), Some(g), g.unicode, 1)
    ensures o + Step(t, s, g).1 ==
            o + CloseChunkOut(s) + TotalOut(s) + ["\n"] + [HeaderLine(BlockName(t, BlockOf(t, g.unicode)))]
              + [GetGlyphName(g)]
  {
    var b := BlockOf(t, g.unicode);
    var h := HeaderLine(BlockName(t, b));
    assert Step(t, s, g).1 == CloseChunkOut(s) + TotalOut(s) + ["\n", h] + [GetGlyphName(g)];
    HeaderRegroup(o, CloseChunkOut(s), TotalOut(s), "\n", h, [GetGlyphName(g)]);
  }

  lemma HeaderRegroup<T>(o: seq<T>, c: seq<T>, d: seq<T>, x: T, y: T, n: seq<T>)
    ensures o + (c + d + [x, y] + n) == o + c + d + [x] + [y] + n
  {
    assert [x, y] == [x] + [y];
  }

  /** What a step that breaks a run inside a block appends to a buffer. */
  lemma RestartStepAppends(t: seq<Block>, s: State, g: Glyph, o: seq<string>)
    requires WellFormed(t) && Inv(t, s) && ValidGlyph(g) && !NeedsHeader(t, s, g)
    requires !(s.previousGlyph.value.unicode >= 0 && s.previousGlyph.value.unicode + 1 == g.unicode)
    requires g.unicode != -1
    ensures Step(t, s, g).0 ==
            s.(chunkStart := g.unicode, previousGlyph := Some(g), glyphCount := s.glyphCount + 1)
    ensures o + Step(t, s, g).1 == o + CloseChunkOut(s) + [GetGlyphName(g)]
  {
    AppendAssoc(o, CloseChunkOut(s), [GetGlyphName(g)]);
  }

  /** What a step that continues the open chunk, by the next code point or by a glyph
      without one, leaves and appends. */
  lemma SilentStepAppends(t: seq<Block>, s: State, g: Glyph, o: seq<string>)
    requires WellFormed(t) && Inv(t, s) && ValidGlyph(g) && !NeedsHeader(t, s, g)
    requires (s.previousGlyph.value.unicode >= 0 && s.previousGlyph.value.unicode + 1 == g.unicode) ||
             g.unicode == -1
    ensures Step(t, s, g).0 == s.(previousGlyph := Some(g), glyphCount := s.glyphCount + 1)
    ensures o + Step(t, s, g).1 ==
            if g.unicode == -1 then o + [", " + GetGlyphName(g)] else o
  {
  }

  lemma AppendAssoc<T>(a: seq<T>, b: seq<T>, c: seq<T>)
    ensures a + (b + c) == a + b + c
  {
  }

  /** The loop over a glyph sequence: the final state and everything printed, in order. */
  function Run(t: seq<Block>, s: State, gs: seq<Glyph>): (r: (State, seq<string>))
    requires WellFormed(t) && Inv(t, s) && AllValid(gs)
    ensures Inv(t, r.0)
    ensures gs != [] ==> r.0.previousGlyph == Some(gs[|gs| - 1])
    ensures gs == [] ==> r == (s, [])
  {
    if gs == [] then (s, [])
    else
      var prefix := Run(t, s, gs[..|gs| - 1]);
      var last := Step(t, prefix.0, gs[|gs| - 1]);
      (last.0, prefix.1 + last.1)
  }

  /** One font: the delimiter line, the reset, the loop, the final `closeChunk` and the
      empty line. The last group gets no `Total:` line. */
  function FontOutput(t: seq<Block>, s: State, name: string, gs: seq<Glyph>): (r: (State, seq<string>))
    requires WellFormed(t) && AllValid(gs)
    ensures Inv(t, r.0)
  {
    var run := Run(t, Reset(s), gs);
    (run.0, [DelimiterLine(name)] + run.1 + CloseChunkOut(run.0) + ["\n"])
  }

  /** One more glyph of the loop, as appended to a buffer. */
  lemma RunStepAppends(t: seq<Block>, s: State, gs: seq<Glyph>, i: nat, o: seq<string>)
    requires WellFormed(t) && Inv(t, s) && AllValid(gs) && i < |gs|
    ensures Run(t, s, gs[..i + 1]).0 == Step(t, Run(t, s, gs[..i]).0, gs[i]).0
    ensures o + Run(t, s, gs[..i + 1]).1 == o + Run(t, s, gs[..i]).1 + Step(t, Run(t, s, gs[..i]).0, gs[i]).1
  {
    assert gs[..i + 1][..i] == gs[..i];
    var prefix := Run(t, s, gs[..i]);
    AppendAssoc(o, prefix.1, Step(t, prefix.0, gs[i]).1);
  }

  /** A font's report, as appended to a buffer. */
  lemma FontOutputAppends(t: seq<Block>, s: State, name: string, gs: seq<Glyph>, o: seq<string>)
    requires WellFormed(t) && AllValid(gs)
    ensures o + FontOutput(t, s, name, gs).1 ==
            o + [DelimiterLine(name)] + Run(t, Reset(s), gs).1 + CloseChunkOut(Run(t, Reset(s), gs).0) + ["\n"]
  {
    var run := Run(t, Reset(s), gs);
    var d, c := [DelimiterLine(name)], CloseChunkOut(run.0);
    calc {
      o + FontOutput(t, s, name, gs).1;
      o + (d + run.1 + c + ["\n"]);
      { AppendAssoc(o, d + run.1 + c, ["\n"]); }
      o + (d + run.1 + c) + ["\n"];
      { AppendAssoc(o, d + run.1, c); }
      o + (d + run.1) + c + ["\n"];
      { AppendAssoc(o, d, run.1); }
      o + d + run.1 + c + ["\n"];
    }
  }

  /** The report of one font, as printed from the initial state. */
  function FontReport(t: seq<Block>, name: string, gs: seq<Glyph>): seq<string>
    requires WellFormed(t) && AllValid(gs)
  {
    FontOutput(t, Start, name, gs).1
  }

  predicate AllFontsValid(fonts: seq<Font>) {
    forall i :: 0 <= i < |fonts| ==> AllValid(fonts[i].glyphs)
  }

  /** The reports of several fonts, one after the other. */
  function Reports(t: seq<Block>, fonts: seq<Font>): seq<string>
    requires WellFormed(t) && AllFontsValid(fonts)
  {
    if fonts == [] then []
    else
      var last := fonts[|fonts| - 1];
      Reports(t, fonts[..|fonts| - 1]) + FontReport(t, last.name, last.glyphs)
  }

  /** The module globals of the script and its standard output. */
  class ReportWriter {
    const table: seq<Block>
    var currentBlock: Option<int>
    var previousGlyph: Option<Glyph>
    var chunkStart: int
    var glyphCount: int
    var out: seq<string>

    function Snapshot(): State
      reads this
    {
      State(currentBlock, previousGlyph, chunkStart, glyphCount)
    }

    ghost predicate Valid()
      reads this
    {
      WellFormed(table) && Inv(table, Snapshot())
    }

    /** Before the first font; the script leaves `glyphCount` unset until the first header
        of the first font, which never reads it. */
    constructor (t: seq<Block>)
      requires WellFormed(t)
      ensures Valid() && table == t
      ensures Snapshot() == Start && out == []
    {
      table := t;
      currentBlock, previousGlyph := None, None;
      chunkStart, glyphCount := -1, 0;
      out := [];
    }

    /** `openChunk`: starts a chunk at `g` and prints its name without a newline. */
    method OpenChunk(g: Glyph)
      requires ValidGlyph(g)
      modifies this
      ensures chunkStart == g.unicode && previousGlyph == Some(g)
      ensures currentBlock == old(currentBlock) && glyphCount == old(glyphCount)
      ensures out == old(out) + [GetGlyphName(g)]
    {
      chunkStart := g.unicode;
      previousGlyph := Some(g);
      // both branches of the script print the display name alone
      out := out + [GetGlyphName(g)];
    }

    /** `closeChunk`: prints the end of the open chunk and changes no global. */
    method CloseChunk()
      requires previousGlyph.Some? ==> previousGlyph.value.unicode >= -1
      modifies this
      ensures Snapshot() == old(Snapshot())
      ensures out == old(out) + CloseChunkOut(old(Snapshot()))
    {
      if previousGlyph.None? {
        return;
      }
      var p := previousGlyph.value;
      if chunkStart == p.unicode {
        out := out + ["\n"];
      } else {
        out := out + [ChunkEndLine(p, chunkStart)];
      }
    }

    /** Leaving a group: the end of its last chunk and, when it held more than one glyph,
        its `Total:` line. */
    method LeaveGroup()
      requires previousGlyph.Some? ==> previousGlyph.value.unicode >= -1
      modifies this
      ensures Snapshot() == old(Snapshot())
      ensures out == old(out) + CloseChunkOut(old(Snapshot())) + TotalOut(old(Snapshot()))
    {
      CloseChunk();
      if currentBlock.Some? && glyphCount > 1 {
        out := out + [TotalLine(glyphCount)];
      }
    }

    /** The first branch of the loop body: leaves the open group (closing its chunk and
        printing its total) and opens a group for `g` under a new header. */
    method StartGroup(g: Glyph)
      requires Valid() && ValidGlyph(g) && NeedsHeader(table, Snapshot(), g)
      modifies this
      ensures Valid()
      ensures Snapshot() == Step(table, old(Snapshot()), g).0
      ensures out == old(out) + Step(table, old(Snapshot()), g).1
    {
      ghost var s0, o0 := Snapshot(), out;
      LeaveGroup();
      glyphCount := 0;
      var b := GetCurrentBlock(table, g.unicode);
      currentBlock := Some(b);
      var blockName := BlockName(table, b);
      out := out + ["\n"];
      out := out + [HeaderLine(blockName)];
      OpenChunk(g);
      glyphCount := glyphCount + 1;
      HeaderStepAppends(table, s0, g, o0);
    }

    /** One iteration of the loop over a font's glyphs. */
    method ProcessGlyph(g: Glyph)
      requires Valid() && ValidGlyph(g)
      modifies this
      ensures Valid()
      ensures Snapshot() == Step(table, old(Snapshot()), g).0
      ensures out == old(out) + Step(table, old(Snapshot()), g).1
    {
      if currentBlock.None? ||
         (currentBlock.value >= 0 &&
          !(table[currentBlock.value].first <= g.unicode && g.unicode <= table[currentBlock.value].last)) ||
         (currentBlock.value == -1 && g.unicode != -1)
      {
        StartGroup(g);
        return;
      }
      ghost var s0, o0 := Snapshot(), out;
      assert !NeedsHeader(table, s0, g);
      var p := previousGlyph.value;
      if p.unicode >= 0 && p.unicode + 1 == g.unicode {
        previousGlyph := Some(g);
        glyphCount := glyphCount + 1;
        SilentStepAppends(table, s0, g, o0);
        return;
      }
      if g.unicode == -1 {
        out := out + [", " + GetGlyphName(g)];
        previousGlyph := Some(g);
        glyphCount := glyphCount + 1;
        SilentStepAppends(table, s0, g, o0);
        return;
      }
      CloseChunk();
      OpenChunk(g);
      glyphCount := glyphCount + 1;
      RestartStepAppends(table, s0, g, o0);
    }

    /** The body of the loop over fonts, for one font. */
    method ProcessFont(name: string, glyphs: seq<Glyph>)
      requires Valid() && AllValid(glyphs)
      modifies this
      ensures Valid()
      ensures Snapshot() == FontOutput(table, old(Snapshot()), name, glyphs).0
      ensures out == old(out) + FontOutput(table, old(Snapshot()), name, glyphs).1
    {
      out := out + [DelimiterLine(name)];
      currentBlock := None;
      previousGlyph := None;
      chunkStart := -1;
      ghost var s0, o0 := Snapshot(), out;
      assert s0 == Reset(old(Snapshot()));
      for i := 0 to |glyphs|
        invariant Valid()
        invariant Snapshot() == Run(table, s0, glyphs[..i]).0
        invariant out == o0 + Run(table, s0, glyphs[..i]).1
      {
        ProcessGlyph(glyphs[i]);
        RunStepAppends(table, s0, glyphs, i, o0);
      }
      assert glyphs[..|glyphs|] == glyphs;
      CloseChunk();
      out := out + ["\n"];
      FontOutputAppends(table, old(Snapshot()), name, glyphs, old(out));
    }
  }
}
