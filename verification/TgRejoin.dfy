/** Putting chunks back together, and what every kind of cut preserves. */
module TgRejoin {
  import opened Text
  import opened TgMarkup
  import opened TgLex
  import opened TgChunk
  import opened TgSigns

  // ---- putting the chunks back together ---------------------------------------

  /** What happened at the end of a chunk: was a mark added there, and which signs were left out between
      this chunk and the next. */
  datatype Cut = Cut(marked: bool, gap: seq<Glyph>)

  function Unmarked(shown: seq<Glyph>, marked: bool): seq<Glyph> {
    if marked && shown != [] then shown[..|shown| - 1] else shown
  }

  /** Only whitespace is left out, and what is taken off as a mark is one. */
  ghost predicate GoodCut(chunk: string, cut: Cut) {
    && (forall k :: 0 <= k < |cut.gap| ==> |cut.gap[k].sign| == 1 && IsSpace(cut.gap[k].sign[0]))
    && (cut.marked ==>
          && cut.gap == [] && Read(chunk, []).shown != []
          && Read(chunk, []).shown[|Read(chunk, []).shown| - 1].sign == HARD_CUT_MARK)
  }

  ghost predicate GoodCuts(chunks: seq<string>, cuts: seq<Cut>) {
    |cuts| == |chunks| && forall k :: 0 <= k < |chunks| ==> GoodCut(chunks[k], cuts[k])
  }

  function Rejoin(chunks: seq<string>, cuts: seq<Cut>): seq<Glyph>
    requires |chunks| == |cuts|
  {
    if chunks == [] then []
    else
      var n := |chunks| - 1;
      Rejoin(chunks[..n], cuts[..n]) + (Unmarked(Read(chunks[n], []).shown, cuts[n].marked) + cuts[n].gap)
  }

  /** Read one after the other, each on its own, the chunks show what the text shows: the same signs under
      the same open tags, in the same order. */
  ghost predicate Shows(chunks: seq<string>, text: string) {
    exists cuts: seq<Cut> :: GoodCuts(chunks, cuts) && Rejoin(chunks, cuts) == Read(text, []).shown
  }

  /** The same, but an entity may have come as its characters. */
  ghost predicate Spells(chunks: seq<string>, text: string) {
    exists cuts: seq<Cut> :: GoodCuts(chunks, cuts) && Spelled(Rejoin(chunks, cuts)) == Spelled(Read(text, []).shown)
  }

  predicate Balanced(chunk: string) {
    Read(chunk, []).open == []
  }

  // ---- what one round preserves -------------------------------------------------

  /** The chunks sent so far and the tokens still to come make up the source: character by character, and
      sign by sign as long as every entity is whole. */
  ghost predicate Faithful(source: Reading, chunks: seq<string>, cuts: seq<Cut>, rest: Reading, whole: bool) {
    && GoodCuts(chunks, cuts)
    && Spelled(Rejoin(chunks, cuts) + rest.shown) == Spelled(source.shown)
    && (whole ==> Rejoin(chunks, cuts) + rest.shown == source.shown)
    && (!whole ==> Entities(Rejoin(chunks, cuts) + rest.shown) < Entities(source.shown))
    && (source.nested ==> rest.nested && forall k :: 0 <= k < |chunks| ==> Read(chunks[k], []).nested)
  }

  /** What was still to come is now the chunk, what its cut left out, and the new rest. */
  ghost predicate Splits(shown: seq<Glyph>, more: seq<Glyph>, shown': seq<Glyph>, halved: bool) {
    && Spelled(shown) == Spelled(more + shown')
    && (!halved ==> shown == more + shown')
    && (halved ==> Entities(more + shown') < Entities(shown))
  }

  lemma RejoinSnoc(chunks: seq<string>, cuts: seq<Cut>, chunk: string, cut: Cut)
    requires GoodCuts(chunks, cuts) && GoodCut(chunk, cut)
    ensures GoodCuts(chunks + [chunk], cuts + [cut])
    ensures Rejoin(chunks + [chunk], cuts + [cut])
         == Rejoin(chunks, cuts) + (Unmarked(Read(chunk, []).shown, cut.marked) + cut.gap)
  {
    hide Read;
    hide GoodCut;
    hide Unmarked;
    assert (chunks + [chunk])[..|chunks|] == chunks;
    assert (cuts + [cut])[..|cuts|] == cuts;
  }

  lemma Extend(source: Reading, chunks: seq<string>, cuts: seq<Cut>, rest: Reading, whole: bool,
               chunk: string, cut: Cut, rest': Reading, halved: bool)
    requires Faithful(source, chunks, cuts, rest, whole) && GoodCut(chunk, cut)
    requires Splits(rest.shown, Unmarked(Read(chunk, []).shown, cut.marked) + cut.gap, rest'.shown, halved)
    requires rest.nested ==> Read(chunk, []).nested && rest'.nested
    ensures Faithful(source, chunks + [chunk], cuts + [cut], rest', whole && !halved)
  {
    hide Read;
    hide GoodCut;
    hide Unmarked;
    hide Spelled;
    hide Entities;
    hide Splits;
    var sent, more := Rejoin(chunks, cuts), Unmarked(Read(chunk, []).shown, cut.marked) + cut.gap;
    RejoinSnoc(chunks, cuts, chunk, cut);
    hide GoodCuts;
    hide Rejoin;
    SplitsBehind(sent, rest.shown, more, rest'.shown, halved);
  }

  lemma SplitsBehind(sent: seq<Glyph>, shown: seq<Glyph>, more: seq<Glyph>, shown': seq<Glyph>, halved: bool)
    requires Splits(shown, more, shown', halved)
    ensures Spelled(sent + shown) == Spelled((sent + more) + shown')
    ensures !halved ==> sent + shown == (sent + more) + shown'
    ensures Entities((sent + more) + shown') <= Entities(sent + shown)
    ensures halved ==> Entities((sent + more) + shown') < Entities(sent + shown)
  {
    hide Spelled;
    hide Entities;
    assert (sent + more) + shown' == sent + (more + shown');
    SpelledConcat(sent, shown);
    SpelledConcat(sent, more + shown');
    EntitiesConcat(sent, shown);
    EntitiesConcat(sent, more + shown');
  }

  /** Cutting at a token edge loses nothing. */
  lemma EdgeFaithful(source: Reading, chunks: seq<string>, cuts: seq<Cut>,
                     toks: seq<string>, i: nat, k: nat, carry: Stack, whole: bool)
    requires i <= k <= |toks| && Clean(toks[i..]) && WfStack(carry)
    requires Faithful(source, chunks, cuts, ReadToks(toks[i..], carry), whole)
    ensures Faithful(source, chunks + [ChunkText(toks, i, k, carry)], cuts + [Cut(false, [])],
                     ReadToks(toks[k..], StackAt(toks, i, k, carry)), whole)
  {
    hide Read;
    hide ReadToks;
    hide Faithful;
    hide WfStack;
    hide Clean;
    hide ChunkText;
    hide Spelled;
    hide Entities;
    ChunkRead(toks, i, k, carry);
    RestRead(toks, i, k, carry);
    var chunk := ChunkText(toks, i, k, carry);
    var rest' := ReadToks(toks[k..], StackAt(toks, i, k, carry));
    assert Read(chunk, []).shown + [] + rest'.shown == Read(chunk, []).shown + rest'.shown;
    Extend(source, chunks, cuts, ReadToks(toks[i..], carry), whole, chunk, Cut(false, []), rest', false);
  }

  /** Cutting at a whitespace token loses that token and nothing else. */
  lemma BreakFaithful(source: Reading, chunks: seq<string>, cuts: seq<Cut>,
                      toks: seq<string>, i: nat, k: nat, carry: Stack, whole: bool)
    requires i <= k < |toks| && Clean(toks[i..]) && WfStack(carry) && IsBlank(toks[k])
    requires Faithful(source, chunks, cuts, ReadToks(toks[i..], carry), whole)
    ensures Faithful(source, chunks + [ChunkText(toks, i, k, carry)],
                     cuts + [Cut(false, Glyphs(toks[k], StackAt(toks, i, k, carry)))],
                     ReadToks(toks[k + 1..], StackAt(toks, i, k, carry)), whole)
  {
    hide Read;
    hide ReadToks;
    hide Faithful;
    hide WfStack;
    hide Clean;
    hide ChunkText;
    hide StackAt;
    var chunk, st := ChunkText(toks, i, k, carry), StackAt(toks, i, k, carry);
    ChunkRead(toks, i, k, carry);
    RestRead(toks, i, k, carry);
    HeadRead(toks, k, st);
    BlankIsNoTag(toks[k]);
    var rest' := ReadToks(toks[k + 1..], st);
    var shown := Read(chunk, []).shown;
    assert shown + Glyphs(toks[k], st) + rest'.shown == shown + (Glyphs(toks[k], st) + rest'.shown);
    BlankGlyphs(toks[k], st);
    Extend(source, chunks, cuts, ReadToks(toks[i..], carry), whole, chunk, Cut(false, Glyphs(toks[k], st)), rest', false);
  }

  lemma HeadRead(toks: seq<string>, k: nat, st: Stack)
    requires k < |toks|
    ensures ReadToks(toks[k..], st) == Then(TokStep(toks[k], st), ReadToks(toks[k + 1..], TokStep(toks[k], st).open))
  {
    hide TokStep;
    assert toks[k..][1..] == toks[k + 1..];
  }

  /** Cutting inside a token adds the mark and loses nothing: the rest of it opens the next chunk. Only an
      entity that is cut through is no longer shown as one. */
  lemma SliceFaithful(source: Reading, chunks: seq<string>, cuts: seq<Cut>,
                      toks: seq<string>, i: nat, j: nat, room: nat, carry: Stack, whole: bool)
    requires i <= j < |toks| && 0 < room < |toks[j]| && !IsTag(toks[j])
    requires Clean(toks[i..]) && WfStack(carry)
    requires Faithful(source, chunks, cuts, ReadToks(toks[i..], carry), whole)
    ensures Clean(toks[j := toks[j][room..]][j..])
    ensures Faithful(source, chunks + [SlicedText(toks, i, j, room, carry)], cuts + [Cut(true, [])],
                     ReadToks(toks[j := toks[j][room..]][j..], StackAt(toks, i, j, carry)),
                     whole && !Halves(toks[j], room))
  {
    hide Read;
    hide ReadToks;
    hide Faithful;
    hide WfStack;
    hide Clean;
    hide SlicedText;
    hide StackAt;
    hide IsTag;
    hide Splits;
    hide Glyphs;
    hide Halves;
    var chunk, st := SlicedText(toks, i, j, room, carry), StackAt(toks, i, j, carry);
    var tok, after := toks[j], toks[j := toks[j][room..]];
    SlicedRead(toks, i, j, room, carry);
    RestRead(toks, i, j, carry);
    SliceClean(toks, i, j, room);
    HeadRead(toks, j, st);
    HeadRead(after, j, st);
    assert after[j + 1..] == toks[j + 1..];
    PlainStep(tok, st);
    PlainStep(tok[room..], st);
    GlyphsMarked(tok[..room], st);
    var before, tail := ReadToks(toks[i..j], carry).shown, ReadToks(toks[j + 1..], st).shown;
    var shown := Read(chunk, []).shown;
    assert shown == (before + Glyphs(tok[..room], st)) + [Glyph(HARD_CUT_MARK, st)];
    assert Unmarked(shown, true) == before + Glyphs(tok[..room], st);
    SliceSplits(before, tok, room, st, tail);
    assert Unmarked(shown, true) + [] == Unmarked(shown, true);
    Extend(source, chunks, cuts, ReadToks(toks[i..], carry), whole, chunk, Cut(true, []), ReadToks(after[j..], st),
           Halves(tok, room));
  }

  lemma SliceSplits(before: seq<Glyph>, tok: string, room: nat, st: Stack, tail: seq<Glyph>)
    requires room <= |tok|
    ensures Splits(before + (Glyphs(tok, st) + tail), before + Glyphs(tok[..room], st), Glyphs(tok[room..], st) + tail,
                   Halves(tok, room))
  {
    hide Spelled;
    hide Entities;
    hide Glyphs;
    hide Halves;
    var x, y, xy := Glyphs(tok[..room], st), Glyphs(tok[room..], st), Glyphs(tok, st);
    if Halves(tok, room) { GlyphsHalved(tok, room, st); } else { GlyphsCut(tok, room, st); }
    SpelledCut(tok, room, st);
    assert (before + x) + (y + tail) == before + ((x + y) + tail);
    SpelledConcat(before, xy + tail);
    SpelledConcat(xy, tail);
    SpelledConcat(before, (x + y) + tail);
    SpelledConcat(x + y, tail);
    SpelledConcat(x, y);
    EntitiesConcat(before, xy + tail);
    EntitiesConcat(xy, tail);
    EntitiesConcat(before, (x + y) + tail);
    EntitiesConcat(x + y, tail);
    EntitiesConcat(x, y);
  }

  lemma PlainStep(tok: string, st: Stack)
    requires !IsTag(tok)
    ensures TokStep(tok, st) == Reading(Glyphs(tok, st), st, true)
  {
  }

  lemma SliceClean(toks: seq<string>, i: nat, j: nat, room: nat)
    requires i <= j < |toks| && 0 < room < |toks[j]| && !IsTag(toks[j]) && Clean(toks[i..])
    ensures Clean(toks[j := toks[j][room..]][j..])
    ensures !IsTag(toks[j][room..]) && (IsBlank(toks[j][room..]) <==> IsBlank(toks[j]))
  {
    hide IsTag;
    hide TokOk;
    hide IsBlank;
    CleanSuffix(toks[i..], j - i);
    assert toks[i..][j - i..] == toks[j..];
    CleanHead(toks[j..]);
    MarkedOk(toks[j], room);
    var after := toks[j := toks[j][room..]];
    assert after[j..][1..] == toks[j..][1..];
    assert !Dangling(after[j]) by { assert '<' !in after[j]; }
  }

  // ---- how many entities arrive -----------------------------------------------------

  function SentEntities(chunks: seq<string>): nat {
    if chunks == [] then 0
    else SentEntities(chunks[..|chunks| - 1]) + Entities(Read(chunks[|chunks| - 1], []).shown)
  }

  /** However the chunks are put back together, as many entities are whole as they show. */
  lemma {:induction false} RejoinCounts(chunks: seq<string>, cuts: seq<Cut>)
    requires GoodCuts(chunks, cuts)
    ensures Entities(Rejoin(chunks, cuts)) == SentEntities(chunks)
    decreases |chunks|
  {
    hide Read;
    hide Entities;
    if chunks == [] {
      NoEntities([]);
    } else {
      var n := |chunks| - 1;
      var shown, cut := Read(chunks[n], []).shown, cuts[n];
      assert GoodCut(chunks[n], cut);
      RejoinCounts(chunks[..n], cuts[..n]);
      EntitiesConcat(Rejoin(chunks[..n], cuts[..n]), Unmarked(shown, cut.marked) + cut.gap);
      EntitiesConcat(Unmarked(shown, cut.marked), cut.gap);
      NoEntities(cut.gap);
      if cut.marked {
        var m := |shown| - 1;
        assert shown == shown[..m] + [shown[m]];
        EntitiesConcat(shown[..m], [shown[m]]);
        NoEntities([shown[m]]);
      }
    }
  }
}
