/** Splitting Telegram HTML into messages that are short enough, valid on their own and, together,
    the original. */
module TgSplit {
  import opened Text
  import opened TgMarkup
  import opened TgLex
  import opened TgChunk
  import opened TgWalk
  import opened TgCut
  import opened TgBudget
  import opened TgRound
  import opened TgSigns
  import opened TgRejoin
  import opened TgLoss

  // ---- the splitter --------------------------------------------------------------

  /** Can no part of the text be sent at all? */
  predicate Hopeless(text: string, limit: nat) {
    NothingFits(Lex(text), [], 0, limit)
  }

  /** Where the loop stands: `toks[i..]` is still to be sent, with the tags in `carry` reopened. */
  datatype Pos = Pos(toks: seq<string>, i: nat, carry: Stack)

  ghost predicate WfPos(p: Pos) {
    p.i <= |p.toks| && Clean(p.toks[p.i..]) && WfStack(p.carry)
  }

  function Rest(p: Pos): seq<string>
    requires p.i <= |p.toks|
  {
    p.toks[p.i..]
  }

  /** The outcome of a round, without the reasons for it: which tokens it used up, and the chunk
      made of them. */
  ghost predicate Placed(p: Pos, out: Outcome) {
    && p.i < |p.toks|
    && match out
       case Tail(c) => c == ChunkText(p.toks, p.i, |p.toks|, p.carry)
       case AtBreak(c, st, k) =>
         && p.i < k < |p.toks| && IsBlank(p.toks[k])
         && c == ChunkText(p.toks, p.i, k, p.carry) && st == StackAt(p.toks, p.i, k, p.carry)
       case AtEdge(c, st, k) =>
         && p.i < k < |p.toks|
         && c == ChunkText(p.toks, p.i, k, p.carry) && st == StackAt(p.toks, p.i, k, p.carry)
       case Sliced(c, st, j, room) =>
         && p.i <= j < |p.toks| && 0 < room < |p.toks[j]| && !IsTag(p.toks[j])
         && c == SlicedText(p.toks, p.i, j, room, p.carry) && st == StackAt(p.toks, p.i, j, p.carry)
       case Dropped(j) => p.i <= j < |p.toks|
  }

  lemma EndsPlaced(p: Pos, limit: nat, out: Outcome)
    requires p.i < |p.toks| && |Openers(p.carry)| <= limit && Ends(p.toks, p.i, p.carry, limit, out)
    ensures Placed(p, out)
    ensures !out.Dropped? ==> |out.chunk| <= limit
  {
    hide ReadToks;
    hide Flatten;
    hide Openers;
    hide Closers;
    hide IsTag;
    hide IsBlank;
    hide BreaksBefore;
    hide SomeContent;
    hide Fits;
    hide ChunkText;
    hide SlicedText;
    hide StackAt;
    hide BreakAt;
  }

  /** Where the loop stands after a round. */
  ghost function Next(p: Pos, out: Outcome): Pos
    requires Placed(p, out)
  {
    match out
    case Tail(_) => Pos(p.toks, |p.toks|, StackAt(p.toks, p.i, |p.toks|, p.carry))
    case AtBreak(_, st, k) => Pos(p.toks, k + 1, st)
    case AtEdge(_, st, k) => Pos(p.toks, k, st)
    case Sliced(_, st, j, room) => Pos(p.toks[j := p.toks[j][room..]], j, st)
    case Dropped(j) => Pos(p.toks, j + 1, p.carry)
  }

  ghost function CutOf(p: Pos, out: Outcome): Cut
    requires Placed(p, out)
  {
    match out
    case AtBreak(_, st, k) => Cut(false, Glyphs(p.toks[k], st))
    case Sliced(_, _, _, _) => Cut(true, [])
    case _ => Cut(false, [])
  }

  /** Did the round cut through an entity? */
  ghost predicate HalvedAt(p: Pos, out: Outcome)
    requires Placed(p, out)
  {
    out.Sliced? && Halves(p.toks[out.tok], out.room)
  }

  lemma SuffixShrinks(toks: seq<string>, i: nat, k: nat)
    requires i < k <= |toks| && Clean(toks[i..])
    ensures |Flatten(toks[k..])| < |Flatten(toks[i..])|
  {
    hide TokOk;
    FlattenSplit(toks[i..], k - i);
    assert toks[i..][k - i..] == toks[k..];
    CleanTake(toks[i..], k - i);
    FlattenNonEmpty(toks[i..][..k - i]);
  }

  lemma SliceShrinks(toks: seq<string>, j: nat, room: nat)
    requires j < |toks| && 0 < room <= |toks[j]|
    ensures |Flatten(toks[j := toks[j][room..]][j..])| < |Flatten(toks[j..])|
  {
    var after := toks[j := toks[j][room..]];
    assert after[j..][1..] == toks[j..][1..];
    assert after[j..][0] == toks[j][room..];
    assert toks[j..][0] == toks[j];
  }

  /** Every round keeps the position well formed and leaves less to send. */
  lemma RoundShape(p: Pos, out: Outcome)
    requires WfPos(p) && Placed(p, out)
    ensures WfPos(Next(p, out))
    ensures |Flatten(Rest(Next(p, out)))| < |Flatten(Rest(p))|
  {
    RoundWf(p, out);
    RoundShrinks(p, out);
  }

  lemma RoundShrinks(p: Pos, out: Outcome)
    requires WfPos(p) && Placed(p, out) && WfPos(Next(p, out))
    ensures |Flatten(Rest(Next(p, out)))| < |Flatten(Rest(p))|
  {
    hide Clean;
    hide WfStack;
    hide Flatten;
    hide Openers;
    hide Closers;
    hide IsTag;
    hide IsBlank;
    hide StackAt;
    hide ChunkText;
    hide SlicedText;
    if out.Sliced? {
      SliceShrinks(p.toks, Next(p, out).i, out.room);
      if p.i < Next(p, out).i { SuffixShrinks(p.toks, p.i, Next(p, out).i); }
    } else {
      SuffixShrinks(p.toks, p.i, Next(p, out).i);
    }
  }

  /** Where the next round begins: behind what this one used up. */
  function NextTok(p: Pos, out: Outcome): nat
    requires Placed(p, out)
  {
    match out
    case Tail(_) => |p.toks|
    case AtBreak(_, _, k) => k + 1
    case AtEdge(_, _, k) => k
    case Sliced(_, _, j, _) => j
    case Dropped(j) => j + 1
  }

  lemma NextStack(p: Pos, out: Outcome)
    requires WfPos(p) && Placed(p, out)
    ensures WfStack(Next(p, out).carry)
  {
    hide Clean;
    hide ChunkText;
    hide SlicedText;
    hide WfStack;
    hide StackAt;
    hide IsTag;
    hide IsBlank;
    var k := match out case Tail(_) => |p.toks| case AtBreak(_, _, k) => k case AtEdge(_, _, k) => k
             case Sliced(_, _, j, _) => j case Dropped(j) => j;
    ChunkRead(p.toks, p.i, k, p.carry);
  }

  lemma NextClean(p: Pos, out: Outcome)
    requires WfPos(p) && Placed(p, out)
    ensures Next(p, out).i == NextTok(p, out) <= |Next(p, out).toks| && Clean(Rest(Next(p, out)))
  {
    hide Clean;
    hide ChunkText;
    hide SlicedText;
    hide WfStack;
    hide StackAt;
    hide IsTag;
    hide IsBlank;
    var toks, i, k := p.toks, p.i, NextTok(p, out);
    if out.Sliced? {
      SliceClean(toks, i, k, out.room);
    } else {
      CleanSuffix(toks[i..], k - i);
      assert toks[i..][k - i..] == toks[k..];
    }
  }

  lemma RoundWf(p: Pos, out: Outcome)
    requires WfPos(p) && Placed(p, out)
    ensures WfPos(Next(p, out))
  {
    hide Clean;
    hide Placed;
    hide WfStack;
    hide Next;
    NextStack(p, out);
    NextClean(p, out);
  }

  /** Every chunk closes what it opens. */
  lemma RoundChunk(p: Pos, out: Outcome)
    requires WfPos(p) && Placed(p, out) && !out.Dropped?
    ensures Balanced(out.chunk)
  {
    hide Clean;
    hide WfStack;
    hide ReadToks;
    hide Flatten;
    hide Openers;
    hide Closers;
    hide IsTag;
    hide IsBlank;
    hide BreaksBefore;
    hide BreakAt;
    hide SomeContent;
    hide Fits;
    hide Read;
    hide ChunkText;
    hide SlicedText;
    var toks, i, carry := p.toks, p.i, p.carry;
    match out
    case Tail(_) => ChunkRead(toks, i, |toks|, carry);
    case AtBreak(_, _, k) => ChunkRead(toks, i, k, carry);
    case AtEdge(_, _, k) => ChunkRead(toks, i, k, carry);
    case Sliced(_, _, j, room) => SlicedRead(toks, i, j, room, carry);
  }

  /** Every chunk accounts for the tokens the round used up, and only a cut through an entity shows. */
  lemma RoundFaithful(p: Pos, out: Outcome, source: Reading, chunks: seq<string>, cuts: seq<Cut>, whole: bool)
    requires WfPos(p) && Placed(p, out) && !out.Dropped?
    requires Faithful(source, chunks, cuts, ReadToks(Rest(p), p.carry), whole)
    ensures WfPos(Next(p, out))
    ensures Faithful(source, chunks + [out.chunk], cuts + [CutOf(p, out)],
                     ReadToks(Rest(Next(p, out)), Next(p, out).carry), whole && !HalvedAt(p, out))
  {
    hide Clean;
    hide WfStack;
    hide ReadToks;
    hide Flatten;
    hide Openers;
    hide Closers;
    hide IsTag;
    hide IsBlank;
    hide BreaksBefore;
    hide BreakAt;
    hide SomeContent;
    hide Fits;
    hide Faithful;
    hide ChunkText;
    hide SlicedText;
    hide StackAt;
    hide Halves;
    var toks, i, carry := p.toks, p.i, p.carry;
    RoundShape(p, out);
    match out
    case Tail(_) => EdgeFaithful(source, chunks, cuts, toks, i, |toks|, carry, whole);
    case AtBreak(_, _, k) => BreakFaithful(source, chunks, cuts, toks, i, k, carry, whole);
    case AtEdge(_, _, k) => EdgeFaithful(source, chunks, cuts, toks, i, k, carry, whole);
    case Sliced(_, _, j, room) => SliceFaithful(source, chunks, cuts, toks, i, j, room, carry, whole);
  }

  /** Room everywhere stays room everywhere. */
  lemma RoundRoomy(p: Pos, limit: nat, spare: nat, out: Outcome)
    requires WfPos(p) && Placed(p, out) && Roomy(Rest(p), p.carry, limit, spare) && spare >= SPARE
    requires |Openers(p.carry)| <= limit && Ends(p.toks, p.i, p.carry, limit, out)
    ensures !out.Dropped? && WfPos(Next(p, out))
    ensures Roomy(Rest(Next(p, out)), Next(p, out).carry, limit, spare)
  {
    hide Clean;
    hide WfStack;
    hide ReadToks;
    hide Flatten;
    hide Openers;
    hide Closers;
    hide IsTag;
    hide BreaksBefore;
    hide BreakAt;
    hide SomeContent;
    hide Fits;
    hide ChunkText;
    hide SlicedText;
    hide StackAt;
    hide Roomy;
    hide IsBlank;
    var toks, i, carry := p.toks, p.i, p.carry;
    RoomyRound(toks, i, carry, limit, spare, out);
    hide Ends;
    RoundShape(p, out);
    match out
    case Tail(_) => RoomyAt(toks, i, |toks|, carry, limit, spare);
    case AtBreak(_, _, k) =>
      RoomyAt(toks, i, k, carry, limit, spare);
      RoomyAt(toks, k, k + 1, StackAt(toks, i, k, carry), limit, spare);
      AtNext(toks, k, k, StackAt(toks, i, k, carry));
      AtStart(toks, k, StackAt(toks, i, k, carry));
      BlankApplied(toks[k], StackAt(toks, i, k, carry));
    case AtEdge(_, _, k) => RoomyAt(toks, i, k, carry, limit, spare);
    case Sliced(_, st, j, room) =>
      RoomyAt(toks, i, j, carry, limit, spare);
      SliceClean(toks, i, j, room);
      RoomySlice(toks, j, room, st, limit, spare);
  }

  /** With room for an entity everywhere none is cut through, and what can be cut has none in it. */
  lemma RoundShort(p: Pos, limit: nat, out: Outcome)
    requires WfPos(p) && Placed(p, out) && Roomy(Rest(p), p.carry, limit, ENTITY_MAX) && AmpsShort(Rest(p))
    requires |Openers(p.carry)| <= limit && Ends(p.toks, p.i, p.carry, limit, out)
    ensures !HalvedAt(p, out) && AmpsShort(Rest(Next(p, out)))
  {
    hide IsTag;
    hide Roomy;
    hide Ends;
    hide Halves;
    hide Clean;
    hide ChunkText;
    hide SlicedText;
    hide StackAt;
    hide AmpsShort;
    hide IsBlank;
    hide WfStack;
    hide Openers;
    hide Flatten;
    var toks, i, k := p.toks, p.i, NextTok(p, out);
    RoomyRound(toks, i, p.carry, limit, ENTITY_MAX, out);
    AmpsBehind(toks, i, k);
    if out.Sliced? { AmpsCut(toks, k, out.room); }
  }

  lemma AmpsBehind(toks: seq<string>, i: nat, k: nat)
    requires i <= k <= |toks| && AmpsShort(toks[i..])
    ensures AmpsShort(toks[k..])
  {
    hide IsTag;
    forall m | 0 <= m < |toks[k..]| && !IsTag(toks[k..][m]) && '&' in toks[k..][m] ensures |toks[k..][m]| <= ENTITY_MAX {
      assert toks[k..][m] == toks[i..][k - i + m];
    }
  }

  /** What is longer than an entity has none in it. */
  lemma AmpsCut(toks: seq<string>, j: nat, room: nat)
    requires j < |toks| && AmpsShort(toks[j..]) && !IsTag(toks[j]) && ENTITY_MAX < |toks[j]| && room <= |toks[j]|
    ensures !Halves(toks[j], room) && AmpsShort(toks[j := toks[j][room..]][j..])
  {
    hide IsTag;
    hide Halves;
    assert toks[j..][0] == toks[j];
    if Halves(toks[j], room) { HalvesAmp(toks[j], room); }
    var after := toks[j := toks[j][room..]][j..];
    assert after[0] == toks[j][room..] && after[1..] == toks[j..][1..];
    forall m | 0 <= m < |after| && !IsTag(after[m]) && '&' in after[m] ensures |after[m]| <= ENTITY_MAX {
      if m > 0 { assert after[m] == toks[j..][m]; }
    }
  }

  lemma BlankApplied(tok: string, st: Stack)
    requires IsBlank(tok)
    ensures Applied(st, tok) == st
  {
    BlankIsNoTag(tok);
  }

  // ---- the whole run ---------------------------------------------------------------

  ghost predicate SentOk(chunks: seq<string>, limit: nat) {
    forall k :: 0 <= k < |chunks| ==> |chunks[k]| <= limit && Balanced(chunks[k])
  }

  /** The loop invariant; `whole` says whether no entity has been cut through so far. */
  ghost predicate Underway(all: seq<string>, limit: nat, p: Pos, chunks: seq<string>, log: seq<Notice>, cuts: seq<Cut>,
                           whole: bool) {
    && WfPos(p) && SentOk(chunks, limit)
    && (log == [] ==> Faithful(ReadToks(all, []), chunks, cuts, ReadToks(Rest(p), p.carry), whole))
    && (Roomy(all, [], limit, SPARE) ==> log == [] && Roomy(Rest(p), p.carry, limit, SPARE))
    && (Roomy(all, [], limit, ENTITY_MAX) && AmpsShort(all) ==>
          log == [] && whole && Roomy(Rest(p), p.carry, limit, ENTITY_MAX) && AmpsShort(Rest(p)))
    && (chunks == [] ==> p.carry == [])
    && (chunks == [] ==> (NothingFits(all, [], 0, limit) <==> NothingFits(Rest(p), [], 0, limit)))
    && (chunks != [] ==> !NothingFits(all, [], 0, limit))
    && (chunks == [] && log == [] ==> Rest(p) != [])
  }

  lemma Begin(text: string, limit: nat)
    requires text != ""
    ensures Underway(Lex(text), limit, Pos(Lex(text), 0, []), [], [], [], true)
  {
    hide Clean;
    hide Roomy;
    hide NothingFits;
    LexClean(text);
    var all := Lex(text);
    assert all != [];
    assert all[0..] == all;
    assert [] + ReadToks(all, []).shown == ReadToks(all, []).shown;
  }

  /** Giving up markup too deep to carry. */
  lemma Flattened(all: seq<string>, limit: nat, p: Pos, chunks: seq<string>, log: seq<Notice>, cuts: seq<Cut>, whole: bool)
    requires Underway(all, limit, p, chunks, log, cuts, whole)
    requires |Openers(p.carry)| > limit / 2
    ensures Underway(all, limit, p.(carry := []), chunks, log + [NestingDropped], cuts, whole)
    ensures |Openers([])| == 0
  {
    hide Clean;
    hide NothingFits;
    hide SentOk;
    hide Faithful;
    hide AmpsShort;
    assert Openers([]) == "";
  }

  /** One round, whichever exit it takes. */
  lemma Advance(all: seq<string>, limit: nat, p: Pos, chunks: seq<string>, log: seq<Notice>, cuts: seq<Cut>, whole: bool,
                out: Outcome)
    requires Underway(all, limit, p, chunks, log, cuts, whole) && p.i < |p.toks| && |Openers(p.carry)| <= limit
    requires Ends(p.toks, p.i, p.carry, limit, out)
    ensures WfPos(p) && Placed(p, out) && WfPos(Next(p, out))
    ensures |Flatten(Rest(Next(p, out)))| < |Flatten(Rest(p))|
    ensures !out.Dropped? ==>
      Underway(all, limit, Next(p, out), chunks + [out.chunk], log, cuts + [CutOf(p, out)], whole && !HalvedAt(p, out))
    ensures out.Dropped? ==>
      Underway(all, limit, Next(p, out), chunks, log + [TokenDropped(p.toks[out.tok])], cuts, whole && !HalvedAt(p, out))
  {
    hide Clean;
    hide WfStack;
    hide ReadToks;
    hide Flatten;
    hide Openers;
    hide Ends;
    hide Placed;
    hide Faithful;
    hide Roomy;
    hide NothingFits;
    hide Read;
    hide AmpsShort;
    hide HalvedAt;
    EndsPlaced(p, limit, out);
    RoundShape(p, out);
    if p.carry == [] { RoundFits(p.toks, p.i, limit, out); }
    if Roomy(all, [], limit, SPARE) { RoundRoomy(p, limit, SPARE, out); }
    if Roomy(all, [], limit, ENTITY_MAX) && AmpsShort(all) {
      RoundRoomy(p, limit, ENTITY_MAX, out);
      RoundShort(p, limit, out);
    }
    if !out.Dropped? {
      RoundChunk(p, out);
      if log == [] { RoundFaithful(p, out, ReadToks(all, []), chunks, cuts, whole); }
    } else {
      DroppedNext(p, out);
    }
  }

  lemma DroppedNext(p: Pos, out: Outcome)
    requires out.Dropped? && Placed(p, out)
    ensures Next(p, out).carry == p.carry && out.tok < |p.toks| && !HalvedAt(p, out)
    ensures Rest(Next(p, out)) == p.toks[out.tok + 1..]
  {
  }

  /** The tokens a round uses up. */
  ghost function Used(p: Pos, out: Outcome): seq<string>
    requires Placed(p, out)
  {
    match out
    case Tail(_) => p.toks[p.i..]
    case AtBreak(_, _, k) => p.toks[p.i..k + 1]
    case AtEdge(_, _, k) => p.toks[p.i..k]
    case Sliced(_, _, j, room) => p.toks[p.i..j] + [p.toks[j][..room]]
    case Dropped(j) => p.toks[p.i..j + 1]
  }

  lemma RoundUses(p: Pos, out: Outcome)
    requires WfPos(p) && Placed(p, out) && Next(p, out).i <= |Next(p, out).toks|
    ensures Flatten(Rest(p)) == Flatten(Used(p, out)) + Flatten(Rest(Next(p, out)))
    ensures Visible(Rest(p)) == Visible(Used(p, out)) + Visible(Rest(Next(p, out)))
  {
    hide Clean;
    hide WfStack;
    hide Flatten;
    hide Visible;
    hide ChunkText;
    hide SlicedText;
    hide StackAt;
    hide IsTag;
    var toks, i, k := p.toks, p.i, NextTok(p, out);
    if out.Sliced? {
      SliceUses(toks, i, k, out.room);
    } else {
      assert toks[i..] == toks[i..k] + toks[k..] && Used(p, out) == toks[i..k];
      FlattenConcat(toks[i..k], toks[k..]);
      VisibleConcat(toks[i..k], toks[k..]);
    }
  }

  lemma SliceUses(toks: seq<string>, i: nat, j: nat, room: nat)
    requires i <= j < |toks| && 0 < room < |toks[j]| && !IsTag(toks[j]) && Clean(toks[i..])
    ensures var used, rest := toks[i..j] + [toks[j][..room]], toks[j := toks[j][room..]][j..];
            Flatten(toks[i..]) == Flatten(used) + Flatten(rest) && Visible(toks[i..]) == Visible(used) + Visible(rest)
  {
    hide IsTag;
    hide Clean;
    hide Flatten;
    hide Visible;
    var head, tail, more := toks[j][..room], toks[j][room..], toks[j + 1..];
    PartIsNoTag(toks[j], room);
    SliceClean(toks, i, j, room);
    assert toks[i..] == toks[i..j] + ([toks[j]] + more);
    assert toks[j := tail][j..] == [tail] + more;
    FlattenConcat(toks[i..j], [toks[j]] + more);
    FlattenConcat([toks[j]], more);
    FlattenConcat(toks[i..j], [head]);
    FlattenConcat([tail], more);
    VisibleConcat(toks[i..j], [toks[j]] + more);
    VisibleConcat([toks[j]], more);
    VisibleConcat(toks[i..j], [head]);
    VisibleConcat([tail], more);
    OnePart(toks[j], room);
    var x, v := Flatten(toks[i..j]), Visible(toks[i..j]);
    assert x + ((head + tail) + Flatten(more)) == (x + head) + (tail + Flatten(more));
    assert v + ((head + tail) + Visible(more)) == (v + head) + (tail + Visible(more));
  }

  lemma OnePart(tok: string, room: nat)
    requires room <= |tok| && !IsTag(tok) && !IsTag(tok[..room]) && !IsTag(tok[room..])
    ensures Flatten([tok]) == Visible([tok]) == tok == tok[..room] + tok[room..]
    ensures Flatten([tok[..room]]) == Visible([tok[..room]]) == tok[..room]
    ensures Flatten([tok[room..]]) == Visible([tok[room..]]) == tok[room..]
  {
    hide IsTag;
    FlattenOne(tok);
    FlattenOne(tok[..room]);
    FlattenOne(tok[room..]);
    VisibleOne(tok);
    VisibleOne(tok[..room]);
    VisibleOne(tok[room..]);
  }

  lemma FlattenOne(tok: string)
    ensures Flatten([tok]) == tok
  {
    FlattenSnoc([], tok);
    assert [] + [tok] == [tok];
  }

  /** A chunk shows the tokens it uses up, under the tags that were open, and leaves open what they do. */
  lemma RoundShows(p: Pos, out: Outcome)
    requires WfPos(p) && Placed(p, out) && !out.Dropped?
    ensures GoodCut(out.chunk, CutOf(p, out))
    ensures Unmarked(Read(out.chunk, []).shown, CutOf(p, out).marked) + CutOf(p, out).gap
         == ReadToks(Used(p, out), p.carry).shown
    ensures ReadToks(Used(p, out), p.carry).open == Next(p, out).carry
  {
    hide Clean;
    hide WfStack;
    hide ReadToks;
    hide Read;
    hide ChunkText;
    hide SlicedText;
    hide IsTag;
    hide IsBlank;
    hide Glyphs;
    var toks, i, carry := p.toks, p.i, p.carry;
    match out
    case Tail(_) =>
      ChunkRead(toks, i, |toks|, carry);
      assert toks[i..|toks|] == toks[i..];
    case AtEdge(_, _, k) => ChunkRead(toks, i, k, carry);
    case AtBreak(_, st, k) =>
      ChunkRead(toks, i, k, carry);
      assert toks[i..k + 1] == toks[i..k] + [toks[k]];
      ReadToksConcat(toks[i..k], [toks[k]], carry);
      BlankStep(toks[k], st);
    case Sliced(_, st, j, room) =>
      SlicedRead(toks, i, j, room, carry);
      GlyphsMarked(toks[j][..room], st);
      ReadToksConcat(toks[i..j], [toks[j][..room]], carry);
      PartStep(toks[j], room, st);
  }

  lemma BlankStep(tok: string, st: Stack)
    requires IsBlank(tok)
    ensures ReadToks([tok], st) == Reading(Glyphs(tok, st), st, true)
    ensures forall k :: 0 <= k < |Glyphs(tok, st)| ==> |Glyphs(tok, st)[k].sign| == 1 && IsSpace(Glyphs(tok, st)[k].sign[0])
  {
    hide Glyphs;
    BlankIsNoTag(tok);
    ReadToksOne(tok, st);
    PlainStep(tok, st);
    BlankGlyphs(tok, st);
  }

  lemma PartStep(tok: string, room: nat, st: Stack)
    requires room <= |tok| && !IsTag(tok)
    ensures ReadToks([tok[..room]], st) == Reading(Glyphs(tok[..room], st), st, true)
  {
    hide Glyphs;
    PartIsNoTag(tok, room);
    ReadToksOne(tok[..room], st);
    PlainStep(tok[..room], st);
  }

  /** A chunk sent or a token dropped: the story goes on. */
  lemma RoundAccounted(all: seq<string>, limit: nat, p: Pos, chunks: seq<string>, log: seq<Notice>, cuts: seq<Cut>,
                       story: seq<Stretch>, out: Outcome) returns (story': seq<Stretch>)
    requires WfPos(p) && p.i < |p.toks| && |Openers(p.carry)| <= limit && Ends(p.toks, p.i, p.carry, limit, out)
    requires Accounted(all, Rest(p), p.carry, chunks, cuts, log, story)
    requires Placed(p, out) && WfPos(Next(p, out))
    ensures !out.Dropped? ==>
      Accounted(all, Rest(Next(p, out)), Next(p, out).carry, chunks + [out.chunk], cuts + [CutOf(p, out)], log, story')
    ensures out.Dropped? ==>
      Accounted(all, Rest(Next(p, out)), Next(p, out).carry, chunks, cuts, log + [TokenDropped(p.toks[out.tok])], story')
  {
    hide Read;
    hide ReadToks;
    hide Accounted;
    hide Ends;
    hide Flatten;
    hide Visible;
    hide GoodCut;
    hide IsContent;
    if out.Dropped? {
      var k := out.tok - p.i;
      DroppedNext(p, out);
      NothingShown(p, limit, out);
      DropAccounted(all, Rest(p), p.carry, k, chunks, cuts, log, story);
      assert Rest(p)[k] == p.toks[out.tok] && Rest(p)[k + 1..] == p.toks[out.tok + 1..];
      story' := story + [Skipped(Rest(p)[..k + 1])];
    } else {
      var q := Next(p, out);
      RoundUses(p, out);
      RoundShows(p, out);
      SendAccounted(all, Rest(p), p.carry, chunks, cuts, log, story, Used(p, out), Rest(q), out.chunk, CutOf(p, out));
      story' := story + [Sent(Used(p, out))];
    }
  }

  lemma NothingShown(p: Pos, limit: nat, out: Outcome)
    requires p.i < |p.toks| && |Openers(p.carry)| <= limit && Ends(p.toks, p.i, p.carry, limit, out)
    requires out.Dropped? && Placed(p, out)
    ensures forall m :: 0 <= m < out.tok - p.i ==> !IsContent(Rest(p)[m])
  {
    hide IsContent;
    forall m | 0 <= m < out.tok - p.i ensures !IsContent(Rest(p)[m]) {
      assert Rest(p)[m] == p.toks[p.i + m];
    }
  }

  /** Chunks and reports together tell the whole story of the text: which stretches were sent, each shown under
      the tags open before it, and which were skipped, with nothing to show but the token that is reported. */
  ghost predicate AllAccounted(text: string, chunks: seq<string>, log: seq<Notice>) {
    exists cuts, story ::
      && GoodCuts(chunks, cuts) && StoryOk(story)
      && TextOf(story) == text && VisibleOf(story) == Chars(Read(text, []).shown)
      && ShownBy(story) == Rejoin(chunks, cuts)
      && Reports(story) == log
  }

  lemma AccountClosed(text: string, carry: Stack, chunks: seq<string>, log: seq<Notice>, cuts: seq<Cut>, story: seq<Stretch>)
    requires Accounted(Lex(text), [], carry, chunks, cuts, log, story)
    ensures AllAccounted(text, chunks, log)
  {
    hide Read;
    hide Lex;
    hide Rejoin;
    LexLossless(text);
    LexClean(text);
    ReadTokens(Lex(text), []);
    CharsVisible(Lex(text), []);
    assert TextOf(story) + "" == TextOf(story) && VisibleOf(story) + "" == VisibleOf(story);
  }

  lemma WholeAccounted(text: string)
    ensures AllAccounted(text, [text], [])
  {
    hide Read;
    hide Lex;
    hide ReadToks;
    hide Visible;
    hide Flatten;
    var toks := Lex(text);
    LexLossless(text);
    LexClean(text);
    ReadTokens(toks, []);
    NothingYet(toks);
    var shown, cut := Read(text, []).shown, Cut(false, []);
    assert shown + [] == shown;
    assert Flatten([]) == "" && Visible([]) == "" by { NoneShown(); }
    assert Flatten(toks) + "" == Flatten(toks) && Visible(toks) + "" == Visible(toks);
    SendAccounted(toks, toks, [], [], [], [], [], toks, [], text, cut);
    assert [] + [text] == [text] && [] + [cut] == [cut] && [] + [Sent(toks)] == [Sent(toks)];
    AccountClosed(text, ReadToks(toks, []).open, [text], [], [cut], [Sent(toks)]);
  }

  lemma NoneShown()
    ensures Flatten([]) == "" && Visible([]) == ""
  {
  }

  /** Every chunk is within the limit, and the message is preserved, unless something was reported lost:
      every character under its tags, and every sign if there was room for entities. */
  ghost predicate Delivered(text: string, limit: nat, chunks: seq<string>, log: seq<Notice>) {
    && chunks != []
    && (forall k :: 0 <= k < |chunks| ==> |chunks[k]| <= limit)
    && (log == [] ==> Spells(chunks, text))
    && (log == [] && Read(text, []).nested ==> forall k :: 0 <= k < |chunks| ==> Read(chunks[k], []).nested)
    && (Roomy(Lex(text), [], limit, 2) ==> log == [])
    && (Roomy(Lex(text), [], limit, 14) && NoLongBrackets(Lex(text)) ==> log == [] && Shows(chunks, text))
  }

  lemma AllSent(text: string, chunks: seq<string>, cuts: seq<Cut>, rest: Reading, whole: bool)
    requires Faithful(Read(text, []), chunks, cuts, rest, whole) && rest.shown == []
    ensures Spells(chunks, text) && (Shows(chunks, text) <==> whole)
    ensures Read(text, []).nested ==> forall k :: 0 <= k < |chunks| ==> Read(chunks[k], []).nested
  {
    hide Read;
    hide Rejoin;
    hide GoodCut;
    hide Spelled;
    hide Entities;
    assert Rejoin(chunks, cuts) + [] == Rejoin(chunks, cuts);
    RejoinCounts(chunks, cuts);
    forall other: seq<Cut> | GoodCuts(chunks, other) && Rejoin(chunks, other) == Read(text, []).shown ensures whole {
      RejoinCounts(chunks, other);
    }
  }

  lemma Done(text: string, limit: nat, p: Pos, chunks: seq<string>, log: seq<Notice>, cuts: seq<Cut>, whole: bool)
    requires |text| > limit && p.i == |p.toks| && Underway(Lex(text), limit, p, chunks, log, cuts, whole)
    ensures forall k :: 0 <= k < |chunks| ==> Balanced(chunks[k])
    ensures chunks == [] <==> Hopeless(text, limit)
    ensures chunks == [] ==> log != []
    ensures Delivered(text, limit, if chunks == [] then [text[..limit]] else chunks, log)
    ensures log == [] ==> (Shows(chunks, text) <==> whole)
  {
    hide Clean;
    hide Roomy;
    hide Read;
    hide Spells;
    hide Shows;
    hide Lex;
    hide Faithful;
    hide AmpsShort;
    hide NoLongBrackets;
    LexLossless(text);
    LexClean(text);
    LexAmps(text);
    ReadTokens(Lex(text), []);
    assert Rest(p) == [];
    assert ReadToks([], p.carry) == Reading([], p.carry, true);
    if log == [] {
      AllSent(text, chunks, cuts, ReadToks(Rest(p), p.carry), whole);
    }
  }

  lemma Whole(text: string, limit: nat)
    requires |text| <= limit
    ensures Delivered(text, limit, [text], []) && Shows([text], text)
  {
    hide Read;
    hide Roomy;
    var cuts := [Cut(false, [])];
    assert Rejoin([text][..0], cuts[..0]) == [];
    assert [] + (Read(text, []).shown + []) == Read(text, []).shown;
    assert Rejoin([text], cuts) == Read(text, []).shown;
    assert GoodCuts([text], cuts);
  }

  // ---- exactly when nothing is given up --------------------------------------------

  /** At every chunk the splitter begins from here on, the open tags take at most half the limit and the
      chunk does not get stuck; and, if entities are to stay whole, it does not cut through one. */
  ghost predicate KeepsAll(p: Pos, limit: nat, whole: bool)
    requires WfPos(p)
    decreases |Flatten(Rest(p))|
  {
    p.i == |p.toks| || (
      && |Openers(p.carry)| <= limit / 2
      && !StuckFrom(Rest(p), p.carry, limit)
      && (whole ==> !HalvesFrom(Rest(p), p.carry, limit))
      && forall out :: Ends(p.toks, p.i, p.carry, limit, out) ==>
           (EndsPlaced(p, limit, out); RoundShape(p, out); KeepsAll(Next(p, out), limit, whole)))
  }

  lemma KeepsRound(p: Pos, limit: nat, out: Outcome, whole: bool)
    requires WfPos(p) && p.i < |p.toks| && |Openers(p.carry)| <= limit / 2
    requires Ends(p.toks, p.i, p.carry, limit, out) && Placed(p, out) && WfPos(Next(p, out))
    ensures KeepsAll(p, limit, whole) <==>
            !out.Dropped? && (whole ==> !HalvedAt(p, out)) && KeepsAll(Next(p, out), limit, whole)
  {
    hide Ends;
    hide Placed;
    hide WfPos;
    hide Openers;
    hide StuckFrom;
    hide HalvesFrom;
    hide Halves;
    hide Next;
    RoundDrops(p.toks, p.i, p.carry, limit, out);
    RoundHalves(p.toks, p.i, p.carry, limit, out);
    forall out' | Ends(p.toks, p.i, p.carry, limit, out') ensures out' == out {
      OneOutcome(p.toks, p.i, p.carry, limit, out, out');
    }
  }

  lemma KeepsEnd(p: Pos, limit: nat, whole: bool)
    requires WfPos(p) && p.i == |p.toks|
    ensures KeepsAll(p, limit, whole)
  {
  }

  lemma TooDeep(p: Pos, limit: nat, whole: bool)
    requires WfPos(p) && p.i < |p.toks| && |Openers(p.carry)| > limit / 2
    ensures !KeepsAll(p, limit, whole)
  {
  }

  /** Where the splitter begins with a text. */
  function Beginning(text: string): (p: Pos)
    ensures WfPos(p)
  {
    LexClean(text);
    assert Lex(text)[0..] == Lex(text);
    Pos(Lex(text), 0, [])
  }

  method SplitHtml(text: string, limit: nat) returns (chunks: seq<string>, log: seq<Notice>)
    ensures |text| <= limit ==> chunks == [text] && log == []
    ensures Delivered(text, limit, chunks, log)
    ensures |text| > limit && !Hopeless(text, limit) ==> forall k :: 0 <= k < |chunks| ==> Balanced(chunks[k])
    ensures |text| > limit && Hopeless(text, limit) ==> chunks == [text[..limit]] && log != []
    ensures |text| <= limit || !Hopeless(text, limit) ==> AllAccounted(text, chunks, log)
    ensures |text| > limit ==> (log == [] <==> KeepsAll(Beginning(text), limit, false))
    ensures |text| > limit ==> (log == [] && Shows(chunks, text) <==> KeepsAll(Beginning(text), limit, true))
    ensures |text| > limit ==> ((forall k :: 0 <= k < |chunks| ==> Balanced(chunks[k]))
                                <==> (Hopeless(text, limit) ==> Balanced(text[..limit])))
  {
    hide Lex;
    hide ReadToks;
    hide Flatten;
    hide Openers;
    hide Closers;
    hide ChunkText;
    hide SlicedText;
    hide StackAt;
    hide Ends;
    hide Underway;
    hide IsTag;
    hide IsBlank;
    hide Read;
    hide Delivered;
    hide Hopeless;
    hide CutOf;
    hide SentOk;
    hide Accounted;
    hide AllAccounted;
    hide KeepsAll;
    hide WfPos;
    hide Roomy;
    hide Shows;
    hide HalvedAt;
    if |text| <= limit {
      Whole(text, limit);
      WholeAccounted(text);
      return [text], [];
    }
    var toks := Lex(text);
    var carry: Stack := [];
    var i: nat := 0;
    ghost var cuts: seq<Cut> := [];
    chunks, log := [], [];
    ghost var story: seq<Stretch> := [];
    ghost var whole := true;
    Begin(text, limit);
    NothingYet(toks);
    assert toks[0..] == toks;
    while i < |toks|
      invariant i <= |toks| && Underway(Lex(text), limit, Pos(toks, i, carry), chunks, log, cuts, whole)
      invariant Accounted(Lex(text), toks[i..], carry, chunks, cuts, log, story)
      invariant WfPos(Pos(toks, i, carry))
      invariant KeepsAll(Beginning(text), limit, false) <==> log == [] && KeepsAll(Pos(toks, i, carry), limit, false)
      invariant KeepsAll(Beginning(text), limit, true) <==> log == [] && whole && KeepsAll(Pos(toks, i, carry), limit, true)
      decreases |Flatten(toks[i..])|
    {
      if |Openers(carry)| > limit / 2 {   // absurd nesting: give it up
        TooDeep(Pos(toks, i, carry), limit, false);
        TooDeep(Pos(toks, i, carry), limit, true);
        Flattened(Lex(text), limit, Pos(toks, i, carry), chunks, log, cuts, whole);
        NestingAccounted(Lex(text), toks[i..], carry, chunks, cuts, log, story);
        story := story + [Unnested];
        log := log + [NestingDropped];
        carry := [];
      }
      var out := NextCut(toks, i, carry, limit);
      ghost var p := Pos(toks, i, carry);
      Advance(Lex(text), limit, p, chunks, log, cuts, whole, out);
      if |Openers(carry)| <= limit / 2 {
        KeepsRound(p, limit, out, false);
        KeepsRound(p, limit, out, true);
      }
      story := RoundAccounted(Lex(text), limit, p, chunks, log, cuts, story, out);
      whole := whole && !HalvedAt(p, out);
      match out {
        case Tail(chunk) =>
          chunks, cuts := chunks + [chunk], cuts + [CutOf(p, out)];
          carry, i := StackAt(toks, i, |toks|, carry), |toks|;
        case AtBreak(chunk, stack, k) =>
          chunks, cuts := chunks + [chunk], cuts + [CutOf(p, out)];
          carry, i := stack, k + 1;
        case AtEdge(chunk, stack, k) =>
          chunks, cuts := chunks + [chunk], cuts + [CutOf(p, out)];
          carry, i := stack, k;
        case Sliced(chunk, stack, j, room) =>
          chunks, cuts := chunks + [chunk], cuts + [CutOf(p, out)];
          toks := toks[j := toks[j][room..]];
          carry, i := stack, j;
        case Dropped(j) =>
          log := log + [TokenDropped(toks[j])];
          i := j + 1;
      }
      assert Pos(toks, i, carry) == Next(p, out);
    }
    assert i == |toks| && toks[i..] == [];
    KeepsEnd(Pos(toks, i, carry), limit, false);
    KeepsEnd(Pos(toks, i, carry), limit, true);
    AccountClosed(text, carry, chunks, log, cuts, story);
    Done(text, limit, Pos(toks, i, carry), chunks, log, cuts, whole);
    if chunks == [] {
      chunks := [text[..limit]];
      assert chunks[0] == text[..limit];
    }
  }
}
