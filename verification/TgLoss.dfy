/** What becomes of every visible character when something has to be given up. */
module TgLoss {
  import opened Text
  import opened TgMarkup
  import opened TgLex
  import opened TgChunk
  import opened TgWalk
  import opened TgSigns
  import opened TgRejoin

  /** What the splitter reports losing. */
  datatype Notice = NestingDropped | TokenDropped(tok: string)

  /** The characters that are shown, without their tags. */
  function Chars(shown: seq<Glyph>): string {
    if shown == [] then "" else shown[0].sign + Chars(shown[1..])
  }

  /** What tokens show: everything but the tags. */
  function Visible(toks: seq<string>): string {
    if toks == [] then "" else (if IsTag(toks[0]) then "" else toks[0]) + Visible(toks[1..])
  }

  /** Which characters are shown does not depend on the tags that are open. */
  lemma {:induction false} CharsVisible(toks: seq<string>, st: Stack)
    ensures Chars(ReadToks(toks, st).shown) == Visible(toks)
    decreases |toks|
  {
    hide IsTag;
    if toks != [] {
      var step := TokStep(toks[0], st);
      CharsVisible(toks[1..], step.open);
      CharsConcat(step.shown, ReadToks(toks[1..], step.open).shown);
      CharsGlyphs(toks[0], st);
    }
  }

  lemma {:induction false} CharsConcat(a: seq<Glyph>, b: seq<Glyph>)
    ensures Chars(a + b) == Chars(a) + Chars(b)
    decreases |a|
  {
    if a == [] {
      assert a + b == b;
    } else {
      CharsConcat(a[1..], b);
      assert (a + b)[1..] == a[1..] + b;
      assert a[0].sign + (Chars(a[1..]) + Chars(b)) == (a[0].sign + Chars(a[1..])) + Chars(b);
    }
  }

  lemma NoChars()
    ensures Chars([]) == ""
  {
  }

  lemma CharsCons(g: Glyph, shown: seq<Glyph>)
    ensures Chars([g] + shown) == g.sign + Chars(shown)
  {
    assert ([g] + shown)[1..] == shown;
  }

  lemma {:induction false} CharsGlyphs(s: string, st: Stack)
    ensures Chars(Glyphs(s, st)) == s
    decreases |s|
  {
    hide SignLen;
    hide Chars;
    if s == "" {
      NoChars();
    } else {
      var n := SignLen(s);
      CharsGlyphs(s[n..], st);
      CharsCons(Glyph(s[..n], st), Glyphs(s[n..], st));
      assert s[..n] + s[n..] == s;
    }
  }

  lemma {:induction false} VisibleConcat(a: seq<string>, b: seq<string>)
    ensures Visible(a + b) == Visible(a) + Visible(b)
    decreases |a|
  {
    hide IsTag;
    if a == [] {
      assert a + b == b;
    } else {
      VisibleConcat(a[1..], b);
      assert (a + b)[1..] == a[1..] + b;
      var x := if IsTag(a[0]) then "" else a[0];
      assert x + (Visible(a[1..]) + Visible(b)) == (x + Visible(a[1..])) + Visible(b);
    }
  }

  lemma VisibleOne(tok: string)
    ensures Visible([tok]) == if IsTag(tok) then "" else tok
  {
    assert Visible([tok][1..]) == "";
  }

  // ---- the story of a text ---------------------------------------------------------

  /** What happened to a stretch of the text: it was sent, or it was skipped, markup and whitespace before a
      token that is reported lost; or, between two stretches, the open tags were given up. */
  datatype Stretch = Sent(toks: seq<string>) | Skipped(toks: seq<string>) | Unnested

  predicate StretchOk(step: Stretch) {
    step.Skipped? ==> step.toks != [] && forall k :: 0 <= k < |step.toks| - 1 ==> !IsContent(step.toks[k])
  }

  ghost predicate StoryOk(story: seq<Stretch>) {
    forall k :: 0 <= k < |story| ==> StretchOk(story[k])
  }

  function ToksOf(step: Stretch): seq<string> {
    if step.Unnested? then [] else step.toks
  }

  /** The stretches, one after the other. */
  function TextOf(story: seq<Stretch>): string {
    if story == [] then "" else TextOf(story[..|story| - 1]) + Flatten(ToksOf(story[|story| - 1]))
  }

  /** What they would all show. */
  function VisibleOf(story: seq<Stretch>): string {
    if story == [] then "" else VisibleOf(story[..|story| - 1]) + Visible(ToksOf(story[|story| - 1]))
  }

  /** The tags that are open after a stretch: those of one that was skipped never were. */
  function OpenedBy(step: Stretch, before: Stack): Stack {
    match step
    case Sent(toks) => ReadToks(toks, before).open
    case Skipped(_) => before
    case Unnested => []
  }

  function OpenAfter(story: seq<Stretch>): Stack {
    if story == [] then [] else OpenedBy(story[|story| - 1], OpenAfter(story[..|story| - 1]))
  }

  function ShownOf(step: Stretch, before: Stack): seq<Glyph> {
    if step.Sent? then ReadToks(step.toks, before).shown else []
  }

  /** What was sent shows: every stretch under the tags that were open before it. */
  function ShownBy(story: seq<Stretch>): seq<Glyph> {
    if story == [] then []
    else ShownBy(story[..|story| - 1]) + ShownOf(story[|story| - 1], OpenAfter(story[..|story| - 1]))
  }

  function Reported(step: Stretch): seq<Notice> {
    match step
    case Sent(_) => []
    case Skipped(toks) => if toks == [] then [] else [TokenDropped(toks[|toks| - 1])]
    case Unnested => [NestingDropped]
  }

  function Reports(story: seq<Stretch>): seq<Notice> {
    if story == [] then [] else Reports(story[..|story| - 1]) + Reported(story[|story| - 1])
  }

  /** The chunks show what the story says was sent, the log holds what it says was lost, and it has told of all
      but `rest`. */
  ghost predicate Accounted(all: seq<string>, rest: seq<string>, carry: Stack, chunks: seq<string>, cuts: seq<Cut>,
                            log: seq<Notice>, story: seq<Stretch>) {
    && GoodCuts(chunks, cuts) && StoryOk(story)
    && TextOf(story) + Flatten(rest) == Flatten(all)
    && VisibleOf(story) + Visible(rest) == Visible(all)
    && OpenAfter(story) == carry
    && Rejoin(chunks, cuts) == ShownBy(story)
    && Reports(story) == log
  }

  lemma NothingYet(all: seq<string>)
    ensures Accounted(all, all, [], [], [], [], [])
  {
    assert "" + Flatten(all) == Flatten(all);
    assert "" + Visible(all) == Visible(all);
  }

  /** One more step of the story. */
  lemma Tell(all: seq<string>, rest: seq<string>, carry: Stack, chunks: seq<string>, cuts: seq<Cut>, log: seq<Notice>,
             story: seq<Stretch>, step: Stretch, rest': seq<string>)
    requires Accounted(all, rest, carry, chunks, cuts, log, story) && StretchOk(step)
    requires Flatten(rest) == Flatten(ToksOf(step)) + Flatten(rest') && Visible(rest) == Visible(ToksOf(step)) + Visible(rest')
    ensures var story' := story + [step];
            && StoryOk(story')
            && TextOf(story') + Flatten(rest') == Flatten(all) && VisibleOf(story') + Visible(rest') == Visible(all)
            && OpenAfter(story') == OpenedBy(step, carry) && ShownBy(story') == Rejoin(chunks, cuts) + ShownOf(step, carry)
            && Reports(story') == log + Reported(step)
  {
    hide StretchOk;
    hide OpenedBy;
    hide ShownOf;
    hide Flatten;
    hide Visible;
    hide Rejoin;
    hide Reported;
    hide ToksOf;
    assert (story + [step])[..|story|] == story;
    var a, b := Flatten(ToksOf(step)), Visible(ToksOf(step));
    Regroup(TextOf(story), a, Flatten(rest'));
    Regroup(VisibleOf(story), b, Visible(rest'));
  }

  lemma Regroup(a: string, b: string, c: string)
    ensures a + (b + c) == (a + b) + c
  {
  }

  lemma NestingAccounted(all: seq<string>, rest: seq<string>, carry: Stack, chunks: seq<string>, cuts: seq<Cut>,
                         log: seq<Notice>, story: seq<Stretch>)
    requires Accounted(all, rest, carry, chunks, cuts, log, story)
    ensures Accounted(all, rest, [], chunks, cuts, log + [NestingDropped], story + [Unnested])
  {
    hide Rejoin;
    assert "" + Flatten(rest) == Flatten(rest) && "" + Visible(rest) == Visible(rest);
    Tell(all, rest, carry, chunks, cuts, log, story, Unnested, rest);
  }

  /** A dropped token is lost, with the whitespace and the tags before it. */
  lemma DropAccounted(all: seq<string>, rest: seq<string>, carry: Stack, k: nat, chunks: seq<string>, cuts: seq<Cut>,
                      log: seq<Notice>, story: seq<Stretch>)
    requires Accounted(all, rest, carry, chunks, cuts, log, story) && k < |rest|
    requires forall m :: 0 <= m < k ==> !IsContent(rest[m])
    ensures Accounted(all, rest[k + 1..], carry, chunks, cuts, log + [TokenDropped(rest[k])],
                      story + [Skipped(rest[..k + 1])])
  {
    hide Rejoin;
    hide Visible;
    hide IsContent;
    assert rest == rest[..k + 1] + rest[k + 1..];
    FlattenConcat(rest[..k + 1], rest[k + 1..]);
    VisibleConcat(rest[..k + 1], rest[k + 1..]);
    Tell(all, rest, carry, chunks, cuts, log, story, Skipped(rest[..k + 1]), rest[k + 1..]);
  }

  /** A chunk that is sent shows the tokens it uses up, under the tags that were open. */
  lemma SendAccounted(all: seq<string>, rest: seq<string>, carry: Stack, chunks: seq<string>, cuts: seq<Cut>,
                      log: seq<Notice>, story: seq<Stretch>, used: seq<string>, rest': seq<string>, chunk: string, cut: Cut)
    requires Accounted(all, rest, carry, chunks, cuts, log, story) && GoodCut(chunk, cut)
    requires Flatten(rest) == Flatten(used) + Flatten(rest') && Visible(rest) == Visible(used) + Visible(rest')
    requires Unmarked(Read(chunk, []).shown, cut.marked) + cut.gap == ReadToks(used, carry).shown
    ensures Accounted(all, rest', ReadToks(used, carry).open, chunks + [chunk], cuts + [cut], log, story + [Sent(used)])
  {
    hide Flatten;
    hide Visible;
    hide Read;
    hide ReadToks;
    hide GoodCut;
    hide GoodCuts;
    hide Rejoin;
    hide Unmarked;
    hide ShownBy;
    hide OpenAfter;
    hide StoryOk;
    Tell(all, rest, carry, chunks, cuts, log, story, Sent(used), rest');
    RejoinHas(all, rest, carry, chunks, cuts, log, story);
    RejoinSnoc(chunks, cuts, chunk, cut);
    assert log + [] == log;
  }

  lemma RejoinHas(all: seq<string>, rest: seq<string>, carry: Stack, chunks: seq<string>, cuts: seq<Cut>,
                  log: seq<Notice>, story: seq<Stretch>)
    requires Accounted(all, rest, carry, chunks, cuts, log, story)
    ensures GoodCuts(chunks, cuts) && |chunks| == |cuts|
  {
  }
}
