/** Properties of the glyph report (module Report): when headers are printed, what the
    chunk counts mean, how the "Non Unicode Glyphs" group behaves, how glyphs are counted
    and totalled, and that a font's report depends on nothing but its own glyphs. */
module ReportProperties {
  import opened Options
  import opened Format
  import opened Blocks
  import opened Glyphs
  import opened Report

  // ------------------------------------------------------------- output shapes

  /** A `** name **` header line. */
  predicate IsHeaderLine(f: string) {
    |f| >= 7 && f[..3] == "** " && f[|f| - 4..] == " **\n"
  }

  /** The output holds an empty line directly followed by a header line. */
  predicate HasHeader(o: seq<string>) {
    exists i :: 0 <= i < |o| - 1 && o[i] == "\n" && IsHeaderLine(o[i + 1])
  }

  /** A `Total: n glyphs.` line. */
  predicate IsTotalLine(f: string) {
    |f| >= 7 && f[..7] == "Total: " && f[|f| - 1] == '\n'
  }

  /** Font libraries use names without line breaks for glyphs. */
  predicate PlainName(g: Glyph) {
    '\n' !in g.glyphname
  }

  predicate AllPlain(gs: seq<Glyph>) {
    forall i :: 0 <= i < |gs| ==> PlainName(gs[i])
  }

  /** Name fragments never end a line, so they are neither header nor total lines. */
  lemma NameFragment(g: Glyph)
    requires g.unicode >= -1 && PlainName(g)
    ensures !IsHeaderLine(GetGlyphName(g)) && !IsTotalLine(GetGlyphName(g))
    ensures !IsHeaderLine(", " + GetGlyphName(g)) && !IsTotalLine(", " + GetGlyphName(g))
  {
    var n := GetGlyphName(g);
    var m := ", " + n;
    assert m[0] == ',';
    FirstChar(m);
    if g.unicode == -1 {
      LastChar(n);
      if |n| > 0 {
        assert n[|n| - 1] in g.glyphname;
      }
    } else {
      assert n[0] == 'U';
      FirstChar(n);
    }
  }

  /** Whatever the glyph's name, a step without a header prints neither a header nor a
      total line: the only name it prints is `", " + name`, or a `U+` name. */
  lemma OtherStepFragments(t: seq<Block>, s: State, g: Glyph)
    requires WellFormed(t) && Inv(t, s) && ValidGlyph(g) && !NeedsHeader(t, s, g)
    ensures forall f :: f in Step(t, s, g).1 ==> !IsHeaderLine(f) && !IsTotalLine(f)
  {
    var n := GetGlyphName(g);
    CloseFragment(s);
    assert (", " + n)[0] == ',';
    FirstChar(", " + n);
    if g.unicode != -1 {
      assert n[0] == 'U';
      FirstChar(n);
    }
  }

  lemma HeaderLineShape(name: string)
    ensures IsHeaderLine(HeaderLine(name)) && !IsTotalLine(HeaderLine(name))
  {
    var h := HeaderLine(name);
    assert h[..3] == "** " && h[|h| - 4..] == " **\n";
    assert h[0] == '*';
    FirstChar(h);
  }

  /** What `closeChunk` prints is never a header or total line. */
  lemma CloseFragment(s: State)
    requires s.previousGlyph.Some? ==> s.previousGlyph.value.unicode >= -1
    ensures forall f :: f in CloseChunkOut(s) ==> !IsHeaderLine(f) && !IsTotalLine(f)
  {
    if s.previousGlyph.Some? && s.chunkStart != s.previousGlyph.value.unicode {
      var l := ChunkEndLine(s.previousGlyph.value, s.chunkStart);
      assert l[0] == '-';
      FirstChar(l);
      assert CloseChunkOut(s) == [l];
    } else if s.previousGlyph.Some? {
      FirstChar("\n");
    }
  }

  /** Header and total lines end with a newline. */
  lemma LastChar(f: string)
    ensures IsHeaderLine(f) ==> f[|f| - 1] == '\n'
    ensures IsTotalLine(f) ==> f[|f| - 1] == '\n'
  {
    if IsHeaderLine(f) {
      assert f[|f| - 4..][3] == f[|f| - 1];
    }
  }

  /** Header lines start with `*`, total lines with `T`. */
  lemma FirstChar(f: string)
    requires |f| > 0
    ensures IsHeaderLine(f) ==> f[0] == '*'
    ensures IsTotalLine(f) ==> f[0] == 'T'
  {
    if IsHeaderLine(f) {
      assert f[..3][0] == f[0];
    }
    if IsTotalLine(f) {
      assert f[..7][0] == f[0];
    }
  }

  // ------------------------------------------------------------ headers

  /** A header step prints an empty line followed by the header of the new group. */
  lemma HeaderWhenNeeded(t: seq<Block>, s: State, g: Glyph)
    requires WellFormed(t) && Inv(t, s) && ValidGlyph(g) && NeedsHeader(t, s, g)
    ensures HasHeader(Step(t, s, g).1)
  {
    var h := HeaderLine(BlockName(t, BlockOf(t, g.unicode)));
    HeaderStepAppends(t, s, g, []);
    assert [] + Step(t, s, g).1 == Step(t, s, g).1;
    HeaderLineShape(BlockName(t, BlockOf(t, g.unicode)));
    HeaderFollowsEmptyLine([] + CloseChunkOut(s) + TotalOut(s), h, [GetGlyphName(g)]);
  }

  lemma HeaderFollowsEmptyLine(c: seq<string>, h: string, n: seq<string>)
    requires IsHeaderLine(h)
    ensures HasHeader(c + ["\n"] + [h] + n)
  {
    var o := c + ["\n"] + [h] + n;
    assert o[|c|] == "\n" && o[|c| + 1] == h;
  }

  /** Any other step prints no header line at all. */
  lemma NoHeaderOtherwise(t: seq<Block>, s: State, g: Glyph)
    requires WellFormed(t) && Inv(t, s) && ValidGlyph(g) && !NeedsHeader(t, s, g)
    ensures !HasHeader(Step(t, s, g).1)
  {
    var o := Step(t, s, g).1;
    OtherStepFragments(t, s, g);
    forall i | 0 <= i < |o|
      ensures !IsHeaderLine(o[i])
    {
      assert o[i] in o;
    }
  }

  /** An empty line and a header are printed for a glyph exactly when no group is open,
      when the open group is a real block that does not classify the glyph's code point
      (a glyph without code point included), or when the open group is "Non Unicode
      Glyphs" and the glyph has a code point. */
  lemma HeaderExactlyOnTransition(t: seq<Block>, s: State, g: Glyph)
    requires WellFormed(t) && Inv(t, s) && ValidGlyph(g)
    ensures HasHeader(Step(t, s, g).1) <==>
            (s.currentBlock.None? ||
             (s.currentBlock.value >= 0 && BlockOf(t, g.unicode) != s.currentBlock.value) ||
             (s.currentBlock.value == -1 && g.unicode != -1))
  {
    if s.currentBlock.Some? && s.currentBlock.value >= 0 {
      RangeTestAgrees(t, s.currentBlock.value, g.unicode);
    }
    if NeedsHeader(t, s, g) {
      HeaderWhenNeeded(t, s, g);
    } else {
      NoHeaderOtherwise(t, s, g);
    }
  }

  /** A glyph without code point never continues a real block: it opens the
      "Non Unicode Glyphs" group. */
  lemma NoCodePointLeavesBlock(t: seq<Block>, s: State, g: Glyph)
    requires WellFormed(t) && Inv(t, s) && ValidGlyph(g)
    requires s.currentBlock.Some? && s.currentBlock.value >= 0 && g.unicode == -1
    ensures NeedsHeader(t, s, g)
    ensures Step(t, s, g).0.currentBlock == Some(-1)
    ensures Step(t, s, g).1[|Step(t, s, g).1| - 2] == HeaderLine("Non Unicode Glyphs")
  {
    OutsideCodeSpace(t, -1);
  }

  /** A code point outside every block always opens a fresh "Non Unicode Glyphs" group,
      whatever group is open. */
  lemma GapCodePointOpensGroup(t: seq<Block>, s: State, g: Glyph)
    requires WellFormed(t) && Inv(t, s) && ValidGlyph(g)
    requires g.unicode != -1 && BlockOf(t, g.unicode) == -1
    ensures NeedsHeader(t, s, g)
    ensures Step(t, s, g).0 == State(Some(-1), Some(g), g.unicode, 1)
    ensures Step(t, s, g).1[|Step(t, s, g).1| - 2] == HeaderLine("Non Unicode Glyphs")
  {
    if s.currentBlock.Some? && s.currentBlock.value >= 0 {
      RangeTestAgrees(t, s.currentBlock.value, g.unicode);
    }
  }

  // ------------------------------------------------------------ runs in a block

  /** Inside a real block a step either extends the chunk by exactly one code point or
      starts a new chunk at the glyph, and the glyph stays in the block. */
  lemma ChunkGrowsByOne(t: seq<Block>, s: State, g: Glyph)
    requires WellFormed(t) && Inv(t, s) && ValidGlyph(g)
    requires s.currentBlock.Some? && s.currentBlock.value >= 0 && !NeedsHeader(t, s, g)
    ensures Step(t, s, g).0.currentBlock == s.currentBlock
    ensures Step(t, s, g).0.glyphCount == s.glyphCount + 1
    ensures var n := Step(t, s, g).0;
            (n.chunkStart == s.chunkStart && g.unicode == s.previousGlyph.value.unicode + 1) ||
            (n.chunkStart == g.unicode && g.unicode != s.previousGlyph.value.unicode + 1)
  {
  }

  /** The next code point inside the open block extends the chunk silently. */
  lemma ConsecutiveStep(t: seq<Block>, s: State, g: Glyph)
    requires WellFormed(t) && Inv(t, s) && ValidGlyph(g)
    requires s.currentBlock.Some? && s.currentBlock.value >= 0
    requires g.unicode == s.previousGlyph.value.unicode + 1 && Contains(t[s.currentBlock.value], g.unicode)
    ensures Step(t, s, g) == (s.(previousGlyph := Some(g), glyphCount := s.glyphCount + 1), [])
  {
    assert t[s.currentBlock.value].first >= 0 by {
      if s.currentBlock.value > 0 {
        assert t[0].last < t[s.currentBlock.value].first;
      }
    }
  }

  /** Code points `p + 1, p + 2, ...`, one per glyph. */
  predicate ConsecutiveFrom(p: int, gs: seq<Glyph>) {
    forall k :: 0 <= k < |gs| ==> gs[k].unicode == p + 1 + k
  }

  /** A stretch of consecutive code points inside the open block prints nothing and only
      moves the chunk's end. */
  lemma {:induction false} ConsecutiveRun(t: seq<Block>, s: State, gs: seq<Glyph>)
    requires WellFormed(t) && Inv(t, s) && AllValid(gs)
    requires s.currentBlock.Some? && s.currentBlock.value >= 0
    requires ConsecutiveFrom(s.previousGlyph.value.unicode, gs)
    requires forall k :: 0 <= k < |gs| ==> Contains(t[s.currentBlock.value], gs[k].unicode)
    ensures Run(t, s, gs).1 == []
    ensures Run(t, s, gs).0 ==
            s.(previousGlyph := if gs == [] then s.previousGlyph else Some(gs[|gs| - 1]),
               glyphCount := s.glyphCount + |gs|)
  {
    if gs != [] {
      var prefix, g := gs[..|gs| - 1], gs[|gs| - 1];
      assert gs == prefix + [g];
      ConsecutiveRun(t, s, prefix);
      RunSnoc(t, s, prefix, g);
      var mid := Run(t, s, prefix).0;
      var p := mid.previousGlyph.value;
      assert p.unicode + 1 == g.unicode by {
        if prefix != [] { assert p == prefix[|prefix| - 1]; }
      }
      ConsecutiveStep(t, mid, g);
    }
  }

  /** A chunk that starts at one glyph and grows by `gs` closes with a newline when `gs` is
      empty and otherwise with `-NAME (N glyphs)`, where N is the number of glyphs in the
      run, so at least two. */
  lemma ChunkCountIsRunLength(t: seq<Block>, s: State, gs: seq<Glyph>)
    requires WellFormed(t) && Inv(t, s) && AllValid(gs)
    requires s.currentBlock.Some? && s.currentBlock.value >= 0
    requires s.chunkStart == s.previousGlyph.value.unicode
    requires ConsecutiveFrom(s.chunkStart, gs)
    requires forall k :: 0 <= k < |gs| ==> Contains(t[s.currentBlock.value], gs[k].unicode)
    ensures Run(t, s, gs).1 == []
    ensures CloseChunkOut(Run(t, s, gs).0) ==
            if gs == [] then ["\n"]
            else ["-" + GetGlyphName(gs[|gs| - 1]) + " (" + Decimal(|gs| + 1) + " glyphs)\n"]
  {
    ConsecutiveRun(t, s, gs);
  }

  // ------------------------------------------------------ "Non Unicode Glyphs"

  /** The fragments appended for glyphs without code point: `, name` each, no newline. */
  function CommaNames(gs: seq<Glyph>): (r: seq<string>)
    ensures |r| == |gs|
    ensures forall k :: 0 <= k < |gs| ==> r[k] == ", " + gs[k].glyphname
  {
    if gs == [] then [] else CommaNames(gs[..|gs| - 1]) + [", " + gs[|gs| - 1].glyphname]
  }

  /** In the "Non Unicode Glyphs" group every further glyph without code point is appended
      to the open line, and the chunk's start does not move. */
  lemma {:induction false} NonUnicodeRun(t: seq<Block>, s: State, gs: seq<Glyph>)
    requires WellFormed(t) && Inv(t, s) && AllValid(gs)
    requires s.currentBlock == Some(-1)
    requires forall k :: 0 <= k < |gs| ==> gs[k].unicode == -1
    ensures Run(t, s, gs).1 == CommaNames(gs)
    ensures Run(t, s, gs).0 ==
            s.(previousGlyph := if gs == [] then s.previousGlyph else Some(gs[|gs| - 1]),
               glyphCount := s.glyphCount + |gs|)
  {
    if gs != [] {
      NonUnicodeRun(t, s, gs[..|gs| - 1]);
    }
  }

  /** A group opened by a code point outside every block and continued by glyphs without
      code point closes with `-name (N glyphs)` where N = -1 - c + 1 = -c, which is zero or
      negative: the count is code point arithmetic, not a number of glyphs. */
  lemma GapGroupCount(t: seq<Block>, s: State, c: int, name: string, gs: seq<Glyph>)
    requires WellFormed(t) && Inv(t, s) && AllValid(gs)
    requires 0 <= c <= 0x10FFFF && BlockOf(t, c) == -1
    requires gs != [] && forall k :: 0 <= k < |gs| ==> gs[k].unicode == -1
    ensures var group := Step(t, s, Glyph(c, name)).0;
            Run(t, group, gs).1 == CommaNames(gs) &&
            CloseChunkOut(Run(t, group, gs).0) ==
              ["-" + gs[|gs| - 1].glyphname + " (" + Decimal(-c) + " glyphs)\n"]
    ensures -c <= 0
  {
    var g := Glyph(c, name);
    GapCodePointOpensGroup(t, s, g);
    NonUnicodeTail(t, g, gs);
  }

  lemma NonUnicodeTail(t: seq<Block>, g: Glyph, gs: seq<Glyph>)
    requires WellFormed(t) && ValidGlyph(g) && g.unicode >= 0 && AllValid(gs)
    requires gs != [] && forall k :: 0 <= k < |gs| ==> gs[k].unicode == -1
    ensures var group := State(Some(-1), Some(g), g.unicode, 1);
            Run(t, group, gs).1 == CommaNames(gs) &&
            CloseChunkOut(Run(t, group, gs).0) ==
              ["-" + gs[|gs| - 1].glyphname + " (" + Decimal(-g.unicode) + " glyphs)\n"]
  {
    var group := State(Some(-1), Some(g), g.unicode, 1);
    NonUnicodeRun(t, group, gs);
    var last := gs[|gs| - 1];
    var fin := Run(t, group, gs).0;
    assert fin == State(Some(-1), Some(last), g.unicode, 1 + |gs|);
    assert CloseChunkOut(fin) == [ChunkEndLine(last, g.unicode)];
    assert last.unicode - g.unicode + 1 == -g.unicode;
  }

  // ------------------------------------------------------------ counts and totals

  /** The size of the group the last glyph of `gs` belongs to, when `gs` is printed from
      the initial state: a header step starts a group of one, any other step adds one. */
  function OpenSize(t: seq<Block>, gs: seq<Glyph>): (r: int)
    requires WellFormed(t) && AllValid(gs) && gs != []
    ensures 1 <= r <= |gs|
  {
    var prefix := gs[..|gs| - 1];
    if NeedsHeader(t, Run(t, Start, prefix).0, gs[|gs| - 1]) then 1
    else OpenSize(t, prefix) + 1
  }

  /** The sizes of the groups left so far, in order: a header step leaves the open group. */
  function LeftSizes(t: seq<Block>, gs: seq<Glyph>): (r: seq<int>)
    requires WellFormed(t) && AllValid(gs)
    ensures gs != [] ==> |r| < |gs|
    ensures forall k :: 0 <= k < |r| ==> r[k] >= 1
  {
    if gs == [] then []
    else
      var prefix := gs[..|gs| - 1];
      var left := LeftSizes(t, prefix);
      if prefix != [] && NeedsHeader(t, Run(t, Start, prefix).0, gs[|gs| - 1])
      then left + [OpenSize(t, prefix)]
      else left
  }

  /** The sizes of the groups a glyph sequence falls into, in order, when it is printed
      from the initial state: a new group starts wherever a header is printed. */
  function GroupSizes(t: seq<Block>, gs: seq<Glyph>): (r: seq<int>)
    requires WellFormed(t) && AllValid(gs)
    ensures |r| <= |gs| && (gs != [] <==> r != [])
    ensures forall k :: 0 <= k < |r| ==> r[k] >= 1
  {
    if gs == [] then [] else LeftSizes(t, gs) + [OpenSize(t, gs)]
  }

  function Sum(xs: seq<int>): int {
    if xs == [] then 0 else Sum(xs[..|xs| - 1]) + xs[|xs| - 1]
  }

  /** The sizes among `xs` greater than one, in order. */
  function BigSizes(xs: seq<int>): seq<int> {
    if xs == [] then []
    else BigSizes(xs[..|xs| - 1]) + (if xs[|xs| - 1] > 1 then [xs[|xs| - 1]] else [])
  }

  /** One `Total:` line per size, in order. */
  function TotalLines(ns: seq<int>): seq<string> {
    if ns == [] then [] else TotalLines(ns[..|ns| - 1]) + [TotalLine(ns[|ns| - 1])]
  }

  /** The `Total:` fragments of an output, in order. */
  function Totals(o: seq<string>): seq<string> {
    if o == [] then []
    else Totals(o[..|o| - 1]) + (if IsTotalLine(o[|o| - 1]) then [o[|o| - 1]] else [])
  }

  lemma {:induction false} TotalsAppend(a: seq<string>, b: seq<string>)
    ensures Totals(a + b) == Totals(a) + Totals(b)
    decreases |b|
  {
    if b == [] {
      assert a + b == a;
    } else {
      assert (a + b)[..|a + b| - 1] == a + b[..|b| - 1];
      assert (a + b)[|a + b| - 1] == b[|b| - 1];
      TotalsAppend(a, b[..|b| - 1]);
    }
  }

  lemma {:induction false} NoTotals(o: seq<string>)
    requires forall f :: f in o ==> !IsTotalLine(f)
    ensures Totals(o) == []
    decreases |o|
  {
    if o != [] {
      assert o[|o| - 1] in o;
      assert forall f :: f in o[..|o| - 1] ==> f in o;
      NoTotals(o[..|o| - 1]);
    }
  }

  /** What `TotalOut` prints is a `Total:` line, when it prints anything. */
  lemma TotalOutTotals(s: State)
    ensures Totals(TotalOut(s)) == TotalOut(s)
  {
    if s.currentBlock.Some? && s.glyphCount > 1 {
      var l := TotalLine(s.glyphCount);
      assert l[..7] == "Total: " && l[|l| - 1] == '\n';
      assert TotalOut(s)[..0] == [];
    }
  }

  lemma TotalsOfFour(c: seq<string>, m: seq<string>, h: seq<string>, n: seq<string>)
    requires Totals(c) == [] && Totals(h) == [] && Totals(n) == []
    ensures Totals(c + m + h + n) == Totals(m)
  {
    TotalsAppend(c, m);
    TotalsAppend(c + m, h);
    TotalsAppend(c + m + h, n);
  }

  /** A header step prints a `Total:` line exactly when the group it leaves holds more
      than one glyph, and that line shows `glyphCount`. */
  lemma HeaderStepTotals(t: seq<Block>, s: State, g: Glyph)
    requires WellFormed(t) && Inv(t, s) && ValidGlyph(g) && PlainName(g) && NeedsHeader(t, s, g)
    ensures Totals(Step(t, s, g).1) ==
            if s.currentBlock.Some? && s.glyphCount > 1 then [TotalLine(s.glyphCount)] else []
  {
    var b := BlockOf(t, g.unicode);
    var c, m, h, n := CloseChunkOut(s), TotalOut(s), HeaderOut(t, b), [GetGlyphName(g)];
    assert Step(t, s, g).1 == c + m + h + n;
    CloseFragment(s);
    NoTotals(c);
    HeaderLineShape(BlockName(t, b));
    NoTotals(h);
    NameFragment(g);
    NoTotals(n);
    TotalsOfFour(c, m, h, n);
    TotalOutTotals(s);
  }

  /** No other step prints a `Total:` line. */
  lemma OtherStepTotals(t: seq<Block>, s: State, g: Glyph)
    requires WellFormed(t) && Inv(t, s) && ValidGlyph(g) && !NeedsHeader(t, s, g)
    ensures Totals(Step(t, s, g).1) == []
  {
    OtherStepFragments(t, s, g);
    NoTotals(Step(t, s, g).1);
  }

  /** Every path of the loop body counts the glyph once: a header step starts the count
      of the new group at one, any other step adds one to it. */
  lemma StepCounts(t: seq<Block>, s: State, g: Glyph)
    requires WellFormed(t) && Inv(t, s) && ValidGlyph(g)
    ensures Step(t, s, g).0.glyphCount == if NeedsHeader(t, s, g) then 1 else s.glyphCount + 1
  {
  }

  lemma SumPush(p: seq<int>, x: int)
    ensures Sum(p + [x]) == Sum(p) + x
  {
    assert (p + [x])[..|p|] == p;
  }

  lemma BigPush(p: seq<int>, x: int)
    ensures BigSizes(p + [x]) == BigSizes(p) + (if x > 1 then [x] else [])
  {
    assert (p + [x])[..|p|] == p;
  }

  lemma {:induction false} TotalLinesAppend(a: seq<int>, b: seq<int>)
    ensures TotalLines(a + b) == TotalLines(a) + TotalLines(b)
    decreases |b|
  {
    if b == [] {
      assert a + b == a;
    } else {
      assert (a + b)[..|a + b| - 1] == a + b[..|b| - 1];
      TotalLinesAppend(a, b[..|b| - 1]);
    }
  }

  /** The groups account for every glyph. */
  lemma {:induction false} GroupSizesSum(t: seq<Block>, gs: seq<Glyph>)
    requires WellFormed(t) && AllValid(gs)
    ensures Sum(GroupSizes(t, gs)) == |gs|
    decreases |gs|
  {
    if gs != [] {
      var prefix := gs[..|gs| - 1];
      var l := LeftSizes(t, prefix);
      SumPush(LeftSizes(t, gs), OpenSize(t, gs));
      if prefix != [] {
        GroupSizesSum(t, prefix);
        SumPush(l, OpenSize(t, prefix));
        if NeedsHeader(t, Run(t, Start, prefix).0, gs[|gs| - 1]) {
          SumPush(l + [OpenSize(t, prefix)], 1);
        }
      }
    }
  }

  /** `glyphCount` is the size of the group still open. */
  lemma {:induction false} CountIsOpenGroup(t: seq<Block>, gs: seq<Glyph>)
    requires WellFormed(t) && AllValid(gs) && gs != []
    ensures Run(t, Start, gs).0.glyphCount == GroupSizes(t, gs)[|GroupSizes(t, gs)| - 1]
    decreases |gs|
  {
    var prefix := gs[..|gs| - 1];
    if prefix != [] {
      CountIsOpenGroup(t, prefix);
    }
  }

  /** When a glyph leaves a group, the `Total:` line printed (if any) shows the size of
      that group, and it is printed exactly when that size is more than one. */
  lemma LeavingPrintsGroupSize(t: seq<Block>, prefix: seq<Glyph>, g: Glyph)
    requires WellFormed(t) && AllValid(prefix) && ValidGlyph(g) && PlainName(g)
    requires prefix != [] && NeedsHeader(t, Run(t, Start, prefix).0, g)
    ensures var k := GroupSizes(t, prefix)[|GroupSizes(t, prefix)| - 1];
            Totals(Step(t, Run(t, Start, prefix).0, g).1) == if k > 1 then [TotalLine(k)] else []
  {
    CountIsOpenGroup(t, prefix);
    HeaderStepTotals(t, Run(t, Start, prefix).0, g);
  }

  /** The `Total:` lines of a step that leaves a group, in terms of that group's size. */
  lemma LeavingTotals(t: seq<Block>, prefix: seq<Glyph>, g: Glyph)
    requires WellFormed(t) && AllValid(prefix) && ValidGlyph(g) && PlainName(g)
    requires prefix != [] && NeedsHeader(t, Run(t, Start, prefix).0, g)
    ensures Totals(Step(t, Run(t, Start, prefix).0, g).1)
            == TotalLines(BigSizes([OpenSize(t, prefix)]))
  {
    LeavingPrintsGroupSize(t, prefix, g);
    LastGroupIsOpen(t, prefix);
    SingleTotal(OpenSize(t, prefix));
  }

  lemma LastGroupIsOpen(t: seq<Block>, gs: seq<Glyph>)
    requires WellFormed(t) && AllValid(gs) && gs != []
    ensures GroupSizes(t, gs)[|GroupSizes(t, gs)| - 1] == OpenSize(t, gs)
  {
  }

  lemma SingleTotal(k: int)
    ensures TotalLines(BigSizes([k])) == if k > 1 then [TotalLine(k)] else []
  {
    BigPush([], k);
    assert [] + [k] == [k];
    if k > 1 {
      assert [k][..0] == [];
    }
  }

  /** The `Total:` lines the loop prints are, in order, one per group left that holds
      more than one glyph, each showing that group's size; the open group has none yet. */
  lemma {:induction false} RunTotals(t: seq<Block>, gs: seq<Glyph>)
    requires WellFormed(t) && AllValid(gs) && AllPlain(gs)
    ensures Totals(Run(t, Start, gs).1) == TotalLines(BigSizes(LeftSizes(t, gs)))
    decreases |gs|
  {
    if gs != [] {
      var prefix, g := gs[..|gs| - 1], gs[|gs| - 1];
      assert g in gs;
      RunTotals(t, prefix);
      var s := Run(t, Start, prefix).0;
      TotalsAppend(Run(t, Start, prefix).1, Step(t, s, g).1);
      if prefix != [] && NeedsHeader(t, s, g) {
        LeavingTotals(t, prefix, g);
        BigPush(LeftSizes(t, prefix), OpenSize(t, prefix));
        TotalLinesAppend(BigSizes(LeftSizes(t, prefix)), BigSizes([OpenSize(t, prefix)]));
        BigPush([], OpenSize(t, prefix));
      } else if prefix == [] {
        HeaderStepTotals(t, s, g);
      } else {
        OtherStepTotals(t, s, g);
      }
    }
  }

  lemma DelimiterNoTotals(name: string)
    ensures Totals([DelimiterLine(name)]) == []
  {
    var d := DelimiterLine(name);
    assert d[0] == '=';
    FirstChar(d);
    NoTotals([d]);
  }

  lemma CloseNoTotals(s: State)
    requires s.previousGlyph.Some? ==> s.previousGlyph.value.unicode >= -1
    ensures Totals(CloseChunkOut(s)) == []
  {
    CloseFragment(s);
    NoTotals(CloseChunkOut(s));
  }

  /** The `Total:` lines of a font's report are, in order, one per group of more than one
      glyph showing its size, except that the last group never gets one. */
  lemma FontTotals(t: seq<Block>, name: string, gs: seq<Glyph>)
    requires WellFormed(t) && AllValid(gs) && AllPlain(gs)
    ensures var sizes := GroupSizes(t, gs);
            Totals(FontReport(t, name, gs)) ==
              TotalLines(BigSizes(if sizes == [] then [] else sizes[..|sizes| - 1]))
  {
    if gs != [] {
      assert GroupSizes(t, gs)[..|GroupSizes(t, gs)| - 1] == LeftSizes(t, gs);
    }
    assert Reset(Start) == Start;
    var run := Run(t, Start, gs);
    RunTotals(t, gs);
    DelimiterNoTotals(name);
    CloseNoTotals(run.0);
    NoTotals(["\n"]);
    TotalsOfFour([DelimiterLine(name)], run.1, CloseChunkOut(run.0), ["\n"]);
  }

  // ------------------------------------------------------------ fonts

  /** The loop, one glyph at a time from the back. */
  lemma RunSnoc(t: seq<Block>, s: State, gs: seq<Glyph>, g: Glyph)
    requires WellFormed(t) && Inv(t, s) && AllValid(gs) && ValidGlyph(g)
    ensures AllValid(gs + [g])
    ensures var prefix := Run(t, s, gs); var last := Step(t, prefix.0, g);
            Run(t, s, gs + [g]) == (last.0, prefix.1 + last.1)
  {
    assert (gs + [g])[..|gs|] == gs;
  }

  /** The loop, one glyph at a time from the front. */
  lemma {:induction false} RunCons(t: seq<Block>, s: State, g: Glyph, gs: seq<Glyph>)
    requires WellFormed(t) && Inv(t, s) && ValidGlyph(g) && AllValid(gs)
    ensures AllValid([g] + gs)
    ensures var first := Step(t, s, g);
            Run(t, s, [g] + gs) == (Run(t, first.0, gs).0, first.1 + Run(t, first.0, gs).1)
    decreases |gs|
  {
    var first := Step(t, s, g);
    if gs == [] {
      RunSnoc(t, s, [], g);
      assert [] + [g] == [g] + gs;
      assert [] + first.1 == first.1 + [];
    } else {
      var prefix, last := gs[..|gs| - 1], gs[|gs| - 1];
      assert gs == prefix + [last];
      assert [g] + gs == ([g] + prefix) + [last];
      RunCons(t, s, g, prefix);
      RunSnoc(t, s, [g] + prefix, last);
      RunSnoc(t, first.0, prefix, last);
      var mid := Run(t, first.0, prefix);
      AppendAssoc(first.1, mid.1, Step(t, mid.0, last).1);
    }
  }

  /** Each font starts from a reset state, so its report depends on its glyphs alone and
      not on the fonts before it (the `glyphCount` left over is never read). */
  lemma FontOutputIndependent(t: seq<Block>, s: State, name: string, gs: seq<Glyph>)
    requires WellFormed(t) && AllValid(gs)
    ensures FontOutput(t, s, name, gs).1 == FontReport(t, name, gs)
  {
    if gs != [] {
      var g, rest := gs[0], gs[1..];
      assert gs == [g] + rest;
      RunCons(t, Reset(s), g, rest);
      RunCons(t, Start, g, rest);
      assert Step(t, Reset(s), g) == Step(t, Start, g);
    }
  }

  /** A font without glyphs prints its delimiter line and one empty line. */
  lemma EmptyFont(t: seq<Block>, name: string)
    requires WellFormed(t)
    ensures FontReport(t, name, []) == [DelimiterLine(name), "\n"]
  {
  }
}
