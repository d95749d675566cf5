/** Texts on which the splitter falls short of what its documentation says. */
module TgSamples {
  import opened Text
  import opened TgMarkup
  import opened TgLex
  import opened TgChunk
  import opened TgWalk
  import opened TgCut
  import opened TgBudget
  import opened TgRound
  import opened TgBreaks
  import opened TgSigns
  import opened TgRejoin
  import opened TgLoss
  import opened TgSplit

  // ---- texts put together from their tokens --------------------------------------

  predicate Letters(s: string) {
    s != "" && forall k :: 0 <= k < |s| ==> 'a' <= s[k] <= 'z'
  }

  predicate Spaces(s: string) {
    s != "" && forall k :: 0 <= k < |s| ==> s[k] == ' '
  }

  function OpenTok(name: string): string {
    "<" + name + ">"
  }

  function CloseTok(name: string): string {
    "</" + name + ">"
  }

  function Blanks(n: nat): (s: string)
    ensures |s| == n && (n > 0 ==> Spaces(s))
  {
    seq(n, _ => ' ')
  }

  const AMP: string := "&amp;"

  lemma LettersAreNames(name: string)
    requires Letters(name)
    ensures Lower(name) == name
    ensures forall k :: 0 <= k < |name| ==>
      IsAlpha(name[k]) && IsNameChar(name[k]) && !IsSpace(name[k]) && !IsAngle(name[k]) && IsWordChar(name[k])
  {
  }

  lemma SkipNothing(s: string, k: nat)
    requires k < |s| && !IsSpace(s[k])
    ensures SkipSpace(s, k) == k
  {
  }

  /** What a tag made of letters parses to. */
  lemma OpenParses(name: string)
    requires Letters(name)
    ensures ParseTag(OpenTok(name)) == OpenTag(name)
  {
    LettersAreNames(name);
    hide Lower;
    hide IsSpace;
    hide SkipSpace;
    hide NameEnd;
    hide IsNameChar;
    hide IsAlpha;
    var t := OpenTok(name);
    assert forall k :: 1 <= k <= |name| ==> t[k] == name[k - 1];
    assert t[|name| + 1] == '>';
    SkipNothing(t, 1);
    BracketEndsName();
    NameEndAt(t, 1, |name| + 1);
    assert t[1..|name| + 1] == name;
  }

  lemma CloseParses(name: string)
    requires Letters(name)
    ensures ParseTag(CloseTok(name)) == CloseTag(name)
  {
    LettersAreNames(name);
    NoSpaceHere(name[0]);
    hide Lower;
    hide IsSpace;
    hide SkipSpace;
    hide NameEnd;
    hide IsNameChar;
    hide IsAlpha;
    var t := CloseTok(name);
    assert t[1] == '/' && forall k :: 2 <= k <= |name| + 1 ==> t[k] == name[k - 2];
    assert t[|name| + 2] == '>';
    SkipNothing(t, 1);
    SkipNothing(t, 2);
    BracketEndsName();
    NameEndAt(t, 2, |name| + 2);
    assert t[2..|name| + 2] == name;
  }

  lemma BracketEndsName()
    ensures !IsNameChar('>')
  {
  }

  lemma NoSpaceHere(c: char)
    requires 'a' <= c <= 'z'
    ensures !IsSpace(c) && !IsSpace('/') && !IsSpace('&') && IsSpace(' ')
  {
  }

  lemma TagLexes(tag: string, rest: string)
    requires |tag| >= 2 && tag[0] == '<' && tag[|tag| - 1] == '>'
    requires forall k :: 1 <= k < |tag| - 1 ==> !IsAngle(tag[k])
    ensures TokenLen(tag + rest) == |tag|
  {
    hide IsSpace;
    FirstAngleAt(tag + rest, 1, |tag| - 1);
  }

  lemma SpacesLex(blank: string, rest: string)
    requires Spaces(blank) && (rest == "" || !IsSpace(rest[0]))
    ensures TokenLen(blank + rest) == |blank|
  {
    var s := blank + rest;
    assert s[0] == ' ' && IsSpace(' ');
    assert forall k :: 0 <= k < |blank| ==> s[k] == blank[k] == ' ';
    var r := SkipSpace(s, 0);
    assert r >= |blank| by {
      assert forall k :: 0 <= k < |blank| ==> IsSpace(s[k]);
    }
    if rest != "" { assert s[|blank|] == rest[0]; }
  }

  lemma LettersLex(word: string, rest: string)
    requires Letters(word) && (rest == "" || !IsWordChar(rest[0]))
    ensures TokenLen(word + rest) == |word|
  {
    hide IsSpace;
    LettersAreNames(word);
    var s := word + rest;
    assert forall k :: 0 <= k < |word| ==> s[k] == word[k];
    if rest != "" { assert s[|word|] == rest[0]; }
    WordEndAt(s, 0, |word|);
  }

  lemma {:induction false} WordEndAt(s: string, k: nat, r: nat)
    requires k <= r <= |s| && (forall m :: k <= m < r ==> IsWordChar(s[m])) && (r < |s| ==> !IsWordChar(s[r]))
    ensures WordEnd(s, k) == r
    decreases r - k
  {
    hide IsWordChar;
    if k < r { WordEndAt(s, k + 1, r); }
  }

  lemma AmpLexes(rest: string)
    ensures TokenLen(AMP + rest) == 5
  {
    hide IsSpace;
    var s := AMP + rest;
    assert s[0] == '&' && s[1] == 'a' && s[2] == 'm' && s[3] == 'p' && s[4] == ';';
    assert EntityEnd(s, 4) == 4 && EntityEnd(s, 3) == 4 && EntityEnd(s, 2) == 4 && EntityEnd(s, 1) == 4;
  }

  /** The tokens the samples are made of. */
  datatype Part = Start(name: string) | End(name: string) | Gap(n: nat) | Word(text: string) | Amp

  function Tok(p: Part): string {
    match p
    case Start(name) => OpenTok(name)
    case End(name) => CloseTok(name)
    case Gap(n) => Blanks(n)
    case Word(text) => text
    case Amp => AMP
  }

  function Toks(parts: seq<Part>): seq<string> {
    if parts == [] then [] else [Tok(parts[0])] + Toks(parts[1..])
  }

  predicate Named(p: Part) {
    match p
    case Start(name) => Letters(name)
    case End(name) => Letters(name)
    case Gap(n) => n > 0
    case Word(text) => Letters(text)
    case Amp => true
  }

  /** Blanks and words stand between tags and entities. */
  predicate Laid(parts: seq<Part>) {
    parts == [] || (
      && Named(parts[0]) && Laid(parts[1..])
      && (parts[0].Gap? || parts[0].Word? ==> parts[1..] == [] || parts[1].Start? || parts[1].End? || parts[1].Amp?))
  }

  lemma FirstChar(parts: seq<Part>)
    requires parts != [] && (parts[0].Start? || parts[0].End? || parts[0].Amp?)
    ensures var s := Flatten(Toks(parts)); s != "" && !IsSpace(s[0]) && !IsWordChar(s[0])
  {
    var t := Toks(parts);
    assert t[0] == Tok(parts[0]) && t[0][0] == Flatten(t)[0];
    assert !IsSpace('<') && !IsSpace('&') by { NoSpaceMarks(); }
  }

  lemma NoSpaceMarks()
    ensures !IsSpace('<') && !IsSpace('&')
  {
  }

  lemma PartLexes(p: Part, rest: string)
    requires Named(p)
    requires p.Gap? || p.Word? ==> rest == "" || (!IsSpace(rest[0]) && !IsWordChar(rest[0]))
    ensures TokenLen(Tok(p) + rest) == |Tok(p)|
  {
    hide TokenLen;
    hide IsSpace;
    match p
    case Start(name) =>
      LettersAreNames(name);
      TagLexes(OpenTok(name), rest);
    case End(name) =>
      LettersAreNames(name);
      TagLexes(CloseTok(name), rest);
    case Gap(n) => SpacesLex(Blanks(n), rest);
    case Word(text) => LettersLex(text, rest);
    case Amp => AmpLexes(rest);
  }

  /** Such a text lexes into the tokens it was made of. */
  lemma {:induction false} LaidLexes(parts: seq<Part>)
    requires Laid(parts)
    ensures Lex(Flatten(Toks(parts))) == Toks(parts)
    decreases |parts|
  {
    hide TokenLen;
    hide IsSpace;
    hide IsWordChar;
    hide Tok;
    if parts != [] {
      var tok, rest := Tok(parts[0]), Flatten(Toks(parts[1..]));
      LaidLexes(parts[1..]);
      if parts[1..] != [] && (parts[0].Gap? || parts[0].Word?) { FirstChar(parts[1..]); }
      PartLexes(parts[0], rest);
      var toks := Toks(parts);
      assert toks[0] == tok && toks[1..] == Toks(parts[1..]);
      assert (tok + rest)[..|tok|] == tok && (tok + rest)[|tok|..] == rest;
    }
  }

  /** What kind of token a part is. */
  lemma PartIs(p: Part)
    requires Named(p)
    ensures IsTag(Tok(p)) <==> p.Start? || p.End?
    ensures p.Start? ==> ParseTag(Tok(p)) == OpenTag(p.name)
    ensures p.End? ==> ParseTag(Tok(p)) == CloseTag(p.name)
    ensures IsBlank(Tok(p)) <==> p.Gap?
    ensures p.Gap? ==> Tier(Tok(p)) == 1
    ensures IsContent(Tok(p)) <==> p.Word? || p.Amp?
  {
    NoSpaceMarks();
    match p
    case Start(name) => OpenParses(name);
    case End(name) => CloseParses(name);
    case Gap(n) => GapTier(n);
    case Word(text) => NoSpaceHere(text[0]);
    case Amp =>
  }

  lemma GapTier(n: nat)
    ensures Tier(Blanks(n)) == 1
    ensures forall k :: 0 <= k < n ==> IsSpace(Blanks(n)[k])
  {
    var s := Blanks(n);
    NoSpaceHere('a');
    forall k | 0 <= k <= |s| ensures !At(s, "\n", k) && !At(s, "\n\n", k) {
      if k < |s| {
        assert s[k] == ' ';
        if k + 1 <= |s| { assert s[k..k + 1][0] == ' '; }
        if k + 2 <= |s| { assert s[k..k + 2][0] == ' '; }
      }
    }
  }

  // ---- the fallback ------------------------------------------------------------------

  /** A text of which nothing can be sent goes out as its first characters, cut anywhere: that
      chunk may leave a tag open. */
  lemma HopelessMayBeUnbalanced()
    ensures Hopeless("<b><i>", 5) && !Balanced("<b><i>"[..5])
  {
    TagOf('b');
    TagOf('i');
    TwoTagsLex();
    assert |Closers([Open("b", "<b>")])| == 4 && |Closers([Open("i", "<i>")])| == 4;
    assert ["<b>", "<i>"][1..] == ["<i>"];
    assert NothingFits(["<i>"], [], 0, 5);
    assert "<b><i>"[..5] == "<b><i";
    HalfTagLeavesOpen();
  }

  lemma TwoTagsLex()
    ensures Lex("<b><i>") == ["<b>", "<i>"]
  {
    hide TokenLen;
    hide IsSpace;
    TagLexes("<b>", "<i>");
    TagLexes("<i>", "");
    assert "<b>" + "<i>" == "<b><i>" && "<i>" + "" == "<i>";
    assert "<b><i>"[..3] == "<b>" && "<b><i>"[3..] == "<i>" && "<i>"[..3] == "<i>" && "<i>"[3..] == "";
    assert Lex("<i>") == ["<i>"] + Lex("");
  }

  /** A tag cut short is text: what it stood in stays open. */
  lemma HalfTagLeavesOpen()
    ensures !Balanced("<b><i")
  {
    var cut, b := "<b><i", Open("b", "<b>");
    TagOf('b');
    assert cut[..3] == "<b>" && cut[3..] == "<i" && "<i"[1..] == "i" && "i"[1..] == "";
    assert BracketLen(cut) == 3 by { FirstAngleAt(cut, 1, 2); }
    assert StepLen(cut) == 3;
    assert Step(cut, []).open == [b];
    assert Read("", [b]).open == [b];
    assert StepLen("i") == 1 && Step("i", [b]).open == [b];
    assert Read("i", [b]).open == [b];
    assert BracketLen("<i") == 0 by { FirstAngleAt("<i", 1, 2); }
    assert StepLen("<i") == 1 && Step("<i", [b]).open == [b];
    assert Read("<i", [b]).open == [b];
  }

  lemma TagOf(c: char)
    requires 'a' <= c <= 'z'
    ensures ParseTag(['<', c, '>']) == OpenTag([c])
    ensures Applied([], ['<', c, '>']) == [Open([c], ['<', c, '>'])]
  {
    OpenParses([c]);
    assert OpenTok([c]) == ['<', c, '>'];
  }

  // ---- the longest run is not enough -----------------------------------------------------

  lemma ClosersPush(st: Stack, o: Open)
    ensures |Closers(st + [o])| == |Closers(st)| + |o.name| + 3
  {
    assert (st + [o])[..|st|] == st;
  }

  /** An opening tag of the samples is pushed; a blank changes nothing. */
  lemma PartApplies(p: Part, st: Stack)
    requires Named(p) && (p.Gap? || (p.Start? && p.name !in VOID_TAGS))
    ensures Applied(st, Tok(p)) == if p.Start? then st + [Open(p.name, Tok(p))] else st
    ensures |Closers(Applied(st, Tok(p)))| == |Closers(st)| + if p.Start? then |p.name| + 3 else 0
  {
    PartIs(p);
    if p.Start? { ClosersPush(st, Open(p.name, Tok(p))); }
  }

  /** A tag that fits, or a blank in code that fits, changes nothing about what is ahead. */
  lemma AheadPast(p: Part, more: seq<Part>, base: nat, st: Stack, used: nat, limit: nat)
    requires Named(p) && (p.Start? || (p.Gap? && InPre(st)))
    requires used + |Tok(p)| + |Closers(Applied(st, Tok(p)))| <= limit
    ensures Ahead(Toks([p] + more), base, st, used, limit)
         == Ahead(Toks(more), base, Applied(st, Tok(p)), used + |Tok(p)|, limit)
  {
    hide Tier;
    hide IsTag;
    hide IsBlank;
    hide Applied;
    hide Closers;
    hide InPre;
    PartIs(p);
    assert ([p] + more)[1..] == more;
    assert Toks([p] + more)[1..] == Toks(more);
  }

  /** What does not fit is ahead. */
  lemma AheadHere(p: Part, more: seq<Part>, base: nat, st: Stack, used: nat, limit: nat)
    requires Named(p) && !p.Gap? && used + |Tok(p)| + |Closers(Applied(st, Tok(p)))| > limit
    ensures Ahead(Toks([p] + more), base, st, used, limit)
         == Blocked(Tok(p), limit - used - |Closers(st)| - |HARD_CUT_MARK|)
  {
    hide Tier;
    hide IsBlank;
    hide IsTag;
    hide Applied;
    hide Closers;
    hide InPre;
    PartIs(p);
  }

  /** <pre>, 100 blanks, <i>, 55 blanks, <u>x</u></i></pre> */
  function PileParts(): seq<Part> {
    [Start("pre")] + ([Gap(100)] + PileRest())
  }

  function PileEnd(): seq<Part> {
    [Word("x"), End("u"), End("i"), End("pre")]
  }

  function PileText(): string {
    Flatten(Toks(PileParts()))
  }

  const PILE_LIMIT: nat := 174

  /** What follows the first blanks. */
  function PileRest(): seq<Part> {
    [Start("i")] + ([Gap(55)] + ([Start("u")] + PileEnd()))
  }

  lemma PileIsStuck()
    ensures StuckFrom(Toks(PileParts()), [], PILE_LIMIT)
  {
    hide Ahead;
    hide Applied;
    hide Closers;
    hide Tok;
    hide Toks;
    hide IsTag;
    var st := [Open("pre", Tok(Start("pre")))];
    TokLengths();
    PartApplies(Start("pre"), []);
    PartApplies(Gap(100), st);
    assert [] + st == st && st[0].name in PREFORMATTED;
    AheadPast(Start("pre"), [Gap(100)] + PileRest(), 0, [], 0, PILE_LIMIT);
    AheadPast(Gap(100), PileRest(), 0, st, 5, PILE_LIMIT);
    RestIsStuck(st);
    assert Openers([]) == "";
  }

  lemma RestIsStuck(st: Stack)
    requires |st| == 1 && st[0].name in PREFORMATTED && |Closers(st)| == 6
    ensures var o := Ahead(Toks(PileRest()), 0, st, 105, PILE_LIMIT); o.Blocked? && IsTag(o.tok)
  {
    hide Ahead;
    hide Applied;
    hide Closers;
    hide Tok;
    hide Toks;
    hide IsTag;
    var st' := st + [Open("i", Tok(Start("i")))];
    TokLengths();
    PartApplies(Start("i"), st);
    PartApplies(Gap(55), st');
    PartApplies(Start("u"), st');
    PartIs(Start("u"));
    assert st'[0].name in PREFORMATTED;
    AheadPast(Start("i"), [Gap(55)] + ([Start("u")] + PileEnd()), 0, st, 105, PILE_LIMIT);
    AheadPast(Gap(55), [Start("u")] + PileEnd(), 0, st', 108, PILE_LIMIT);
    AheadHere(Start("u"), PileEnd(), 0, st', 163, PILE_LIMIT);
  }

  lemma TokLengths()
    ensures |Tok(Start("pre"))| == 5 && |Tok(Start("i"))| == 3 && |Tok(Start("u"))| == 3
    ensures |Tok(Gap(100))| == 100 && |Tok(Gap(55))| == 55 && |Tok(Word("x"))| == 1
    ensures |Tok(Word("aa"))| == 2 && |Tok(Amp)| == 5 && |Tok(Word("bb"))| == 2
    ensures |Tok(End("pre"))| == 6 && |Tok(End("i"))| == 4 && |Tok(End("u"))| == 4
    ensures |Closers([])| == 0
  {
  }

  predicate GapsUpTo(parts: seq<Part>, run: nat) {
    parts == [] || ((parts[0].Gap? ==> parts[0].n <= run) && GapsUpTo(parts[1..], run))
  }

  /** Tag text and longest run of a list of parts. */
  function PartTags(parts: seq<Part>): nat {
    if parts == [] then 0
    else (if parts[0].Start? || parts[0].End? then |Tok(parts[0])| else 0) + PartTags(parts[1..])
  }

  lemma {:induction false} PartMeasures(parts: seq<Part>, run: nat)
    requires Laid(parts) && GapsUpTo(parts, run)
    ensures TagText(Toks(parts)) == PartTags(parts) && LongestRun(Toks(parts)) <= run
    decreases |parts|
  {
    hide IsTag;
    hide IsBlank;
    if parts != [] {
      PartMeasures(parts[1..], run);
      PartIs(parts[0]);
      assert Toks(parts)[1..] == Toks(parts[1..]);
    }
  }

  /** Inside code 7/3 of the tag text and the longest run can leave fifteen characters of the limit, and
      a token is dropped all the same, in the very first round. */
  lemma LongestRunIsNotEnough()
    ensures Lex(PileText()) == Toks(PileParts())
    ensures 7 * TagText(Lex(PileText())) + 3 * LongestRun(Lex(PileText())) + 3 * 15 <= 3 * PILE_LIMIT < 3 * |PileText()|
    ensures StuckFrom(Lex(PileText()), [], PILE_LIMIT)
    ensures Lex(PileText()) != []
    ensures forall out :: Ends(Lex(PileText()), 0, [], PILE_LIMIT, out) ==> out.Dropped?
    ensures !KeepsAll(Beginning(PileText()), PILE_LIMIT, false)
  {
    hide Ends;
    hide AheadOf;
    hide Tok;
    hide Lex;
    PileLaid();
    LaidLexes(PileParts());
    PileMeasures();
    PileIsStuck();
    var toks := Toks(PileParts());
    assert Openers([]) == "" && toks[0..] == toks;
    forall out | Ends(toks, 0, [], PILE_LIMIT, out) ensures out.Dropped? {
      RoundDrops(toks, 0, [], PILE_LIMIT, out);
    }
    StuckGivesUp(PileText(), PILE_LIMIT);
  }

  lemma StuckGivesUp(text: string, limit: nat)
    requires Lex(text) != [] && StuckFrom(Lex(text), [], limit)
    ensures !KeepsAll(Beginning(text), limit, false)
  {
    hide StuckFrom;
    hide Lex;
    assert Rest(Beginning(text)) == Lex(text);
  }

  lemma PileLaid()
    ensures Laid(PileParts()) && GapsUpTo(PileParts(), 100) && Toks(PileParts()) != []
  {
    hide Tok;
    hide Laid;
    hide GapsUpTo;
    var r4 := [Start("u")] + PileEnd();
    var r3 := [Gap(55)] + r4;
    NoneLaid();
    assert PileEnd() == [Word("x")] + ([End("u")] + ([End("i")] + ([End("pre")] + [])));
    LaidPast(End("pre"), [], 100);
    LaidPast(End("i"), [End("pre")] + [], 100);
    LaidPast(End("u"), [End("i")] + ([End("pre")] + []), 100);
    LaidPast(Word("x"), [End("u")] + ([End("i")] + ([End("pre")] + [])), 100);
    LaidPast(Start("u"), PileEnd(), 100);
    LaidPast(Gap(55), r4, 100);
    LaidPast(Start("i"), r3, 100);
    LaidPast(Gap(100), PileRest(), 100);
    LaidPast(Start("pre"), [Gap(100)] + PileRest(), 100);
  }

  lemma NoneLaid()
    ensures Laid([]) && GapsUpTo([], 100)
  {
  }

  lemma LaidPast(p: Part, more: seq<Part>, run: nat)
    requires Named(p) && Laid(more) && GapsUpTo(more, run) && (p.Gap? ==> p.n <= run)
    requires p.Gap? || p.Word? ==> more == [] || more[0].Start? || more[0].End? || more[0].Amp?
    ensures Laid([p] + more) && GapsUpTo([p] + more, run)
  {
    assert ([p] + more)[1..] == more;
  }

  lemma PileMeasures()
    ensures TagText(Toks(PileParts())) == 25 && LongestRun(Toks(PileParts())) <= 100 && |PileText()| == 181
  {
    hide Tok;
    PileLaid();
    TokLengths();
    PartMeasures(PileParts(), 100);
    PileSums();
  }

  lemma PileSums()
    ensures PartTags(PileParts()) == 25 && |PileText()| == 181
  {
    hide Tok;
    hide Toks;
    hide PartTags;
    hide Flatten;
    TokLengths();
    EndSums();
    SumPast(Start("pre"), [Gap(100)] + PileRest());
    SumPast(Gap(100), PileRest());
    SumPast(Start("i"), [Gap(55)] + ([Start("u")] + PileEnd()));
    SumPast(Gap(55), [Start("u")] + PileEnd());
    SumPast(Start("u"), PileEnd());
  }

  lemma EndSums()
    ensures PartTags(PileEnd()) == 14 && |Flatten(Toks(PileEnd()))| == 15
  {
    hide Tok;
    TokLengths();
    assert PileEnd() == [Word("x")] + ([End("u")] + ([End("i")] + ([End("pre")] + [])));
    SumPast(Word("x"), [End("u")] + ([End("i")] + ([End("pre")] + [])));
    SumPast(End("u"), [End("i")] + ([End("pre")] + []));
    SumPast(End("i"), [End("pre")] + []);
    SumPast(End("pre"), []);
  }

  lemma SumPast(p: Part, more: seq<Part>)
    ensures PartTags([p] + more) == (if p.Start? || p.End? then |Tok(p)| else 0) + PartTags(more)
    ensures |Flatten(Toks([p] + more))| == |Tok(p)| + |Flatten(Toks(more))|
  {
    hide Tok;
    assert ([p] + more)[1..] == more;
    assert Toks([p] + more)[1..] == Toks(more);
  }

  // ---- code cut where there is no line break ------------------------------------------

  /** <pre>aa&amp;bb</pre> */
  function CodeParts(): seq<Part> {
    [Start("pre"), Word("aa"), Amp, Word("bb"), End("pre")]
  }

  function CodeText(): string {
    Flatten(Toks(CodeParts()))
  }

  const CODE_LIMIT: nat := 18

  function CodeToks(): seq<string> {
    [Tok(Start("pre")), Tok(Word("aa")), Tok(Amp), Tok(Word("bb")), Tok(End("pre"))]
  }

  lemma CodeLexes()
    ensures Lex(CodeText()) == CodeToks()
  {
    hide Tok;
    hide Lex;
    hide Laid;
    hide GapsUpTo;
    NoneLaid();
    LaidPast(End("pre"), [], 100);
    LaidPast(Word("bb"), [End("pre")] + [], 100);
    LaidPast(Amp, [Word("bb")] + ([End("pre")] + []), 100);
    assert CodeParts() == [Start("pre")] + ([Word("aa")] + ([Amp] + ([Word("bb")] + ([End("pre")] + []))));
    LaidPast(Word("aa"), [Amp] + ([Word("bb")] + ([End("pre")] + [])), 100);
    LaidPast(Start("pre"), [Word("aa")] + ([Amp] + ([Word("bb")] + ([End("pre")] + []))), 100);
    LaidLexes(CodeParts());
    TheseToks();
  }

  lemma TheseToks()
    ensures Toks(CodeParts()) == CodeToks()
  {
    hide Tok;
    var c := CodeParts();
    assert c[1..] == [Word("aa"), Amp, Word("bb"), End("pre")] && c[1..][1..] == [Amp, Word("bb"), End("pre")];
    assert c[1..][1..][1..] == [Word("bb"), End("pre")] && c[1..][1..][1..][1..] == [End("pre")];
    assert Toks([End("pre")]) == [Tok(End("pre"))];
    assert Toks([Word("bb"), End("pre")]) == [Tok(Word("bb")), Tok(End("pre"))];
    assert Toks([Amp, Word("bb"), End("pre")]) == [Tok(Amp), Tok(Word("bb")), Tok(End("pre"))];
  }

  /** Words and entities leave the open tags alone. */
  lemma PartStays(p: Part, st: Stack)
    requires Named(p) && (p.Word? || p.Amp?)
    ensures Applied(st, Tok(p)) == st
  {
    hide Tok;
    PartIs(p);
  }

  /** Three tokens fit, inside <pre>; the fourth does not. */
  lemma CodeWalk()
    ensures OverflowsAt(CodeToks(), 0, 3, [], CODE_LIMIT) && SomeContent(CodeToks(), 0, 3)
    ensures StackAt(CodeToks(), 0, 3, []) == [Open("pre", Tok(Start("pre")))]
  {
    hide Tok;
    hide StackAt;
    hide LenAt;
    hide Applied;
    hide Closers;
    hide IsContent;
    var toks := CodeToks();
    var st := [Open("pre", Tok(Start("pre")))];
    TokLengths();
    PartIs(Word("aa"));
    assert IsContent(toks[1]);
    PartApplies(Start("pre"), []);
    PartStays(Word("aa"), st);
    PartStays(Amp, st);
    PartStays(Word("bb"), st);
    AtStart(toks, 0, []);
    AtNext(toks, 0, 0, []);
    AtNext(toks, 0, 1, []);
    AtNext(toks, 0, 2, []);
    AtNext(toks, 0, 3, []);
    assert [] + st == st && Openers([]) == "";
  }

  /** Code is not always cut at a line break or not at all: whatever the first round does with this text,
      it ends inside <pre>, at a token edge. */
  lemma CodeCutAtEdge(out: Outcome)
    requires Ends(Lex(CodeText()), 0, [], CODE_LIMIT, out)
    ensures |CodeText()| > CODE_LIMIT && out.AtEdge? && InPre(out.stack)
  {
    hide Tok;
    hide Lex;
    hide StackAt;
    hide OverflowsAt;
    hide SomeContent;
    hide IsContent;
    hide Fits;
    hide IsBlank;
    hide BreakPassed;
    hide Ends;
    assert Openers([]) == "";
    CodeLexes();
    var toks := CodeToks();
    CodeWalk();
    CodeLength();
    NoBlanks();
    NoBlankNoBreak(toks, 0, [], CODE_LIMIT);
    EdgeWhereItOverflows(toks, 0, 3, [], CODE_LIMIT, out);
    assert out.stack[0].name in PREFORMATTED;
  }

  lemma CodeLength()
    ensures |CodeText()| == 20
  {
    hide Tok;
    TokLengths();
    assert CodeParts() == [Start("pre")] + ([Word("aa")] + ([Amp] + ([Word("bb")] + ([End("pre")] + []))));
    SumPast(Start("pre"), [Word("aa")] + ([Amp] + ([Word("bb")] + ([End("pre")] + []))));
    SumPast(Word("aa"), [Amp] + ([Word("bb")] + ([End("pre")] + [])));
    SumPast(Amp, [Word("bb")] + ([End("pre")] + []));
    SumPast(Word("bb"), [End("pre")] + []);
    SumPast(End("pre"), []);
  }

  lemma NoBlanks()
    ensures forall k :: 0 <= k < |CodeToks()| ==> !IsBlank(CodeToks()[k])
  {
    hide Tok;
    hide IsBlank;
    PartIs(Start("pre"));
    PartIs(Word("aa"));
    PartIs(Amp);
    PartIs(Word("bb"));
    PartIs(End("pre"));
  }

  // ---- an entity cut through ----------------------------------------------------------

  /** <b><i><u>&amp;</u></i></b> */
  function EntityParts(): seq<Part> {
    [Start("b")] + ([Start("i")] + ([Start("u")] + ([Amp] + EntityEnds())))
  }

  function EntityEnds(): seq<Part> {
    [End("u")] + ([End("i")] + ([End("b")] + []))
  }

  function EntityText(): string {
    Flatten(Toks(EntityParts()))
  }

  const ENTITY_LIMIT: nat := 25

  lemma EntityLaid()
    ensures Laid(EntityParts()) && Toks(EntityParts()) != []
  {
    hide Tok;
    hide Laid;
    hide GapsUpTo;
    NoneLaid();
    LaidPast(End("b"), [], 100);
    LaidPast(End("i"), [End("b")] + [], 100);
    LaidPast(End("u"), [End("i")] + ([End("b")] + []), 100);
    LaidPast(Amp, EntityEnds(), 100);
    LaidPast(Start("u"), [Amp] + EntityEnds(), 100);
    LaidPast(Start("i"), [Start("u")] + ([Amp] + EntityEnds()), 100);
    LaidPast(Start("b"), [Start("i")] + ([Start("u")] + ([Amp] + EntityEnds())), 100);
  }

  lemma EntityLength()
    ensures |EntityText()| == 26
  {
    hide Tok;
    hide Toks;
    hide Flatten;
    EntityLengths();
    SumPast(Start("b"), [Start("i")] + ([Start("u")] + ([Amp] + EntityEnds())));
    SumPast(Start("i"), [Start("u")] + ([Amp] + EntityEnds()));
    SumPast(Start("u"), [Amp] + EntityEnds());
    SumPast(Amp, EntityEnds());
    SumPast(End("u"), [End("i")] + ([End("b")] + []));
    SumPast(End("i"), [End("b")] + []);
    SumPast(End("b"), []);
    assert |Flatten(Toks([]))| == 0 by { NoToks(); }
  }

  lemma NoToks()
    ensures Flatten(Toks([])) == ""
  {
  }

  lemma EntityLengths()
    ensures |Tok(Start("b"))| == 3 && |Tok(Start("i"))| == 3 && |Tok(Start("u"))| == 3 && Tok(Amp) == AMP && |AMP| == 5
    ensures |Tok(End("b"))| == 4 && |Tok(End("i"))| == 4 && |Tok(End("u"))| == 4
    ensures |Closers([])| == 0 && Openers([]) == ""
  {
  }

  /** Three tags fit; then there is room for three of the five characters of the entity. */
  lemma EntityAhead()
    ensures AheadOf(Toks(EntityParts()), [], ENTITY_LIMIT) == Blocked(AMP, 3)
  {
    hide Ahead;
    hide Applied;
    hide Closers;
    hide Tok;
    hide Toks;
    var b, i, u := Start("b"), Start("i"), Start("u");
    EntityLengths();
    PartApplies(b, []);
    var st1 := Applied([], Tok(b));
    PartApplies(i, st1);
    var st2 := Applied(st1, Tok(i));
    PartApplies(u, st2);
    var st3 := Applied(st2, Tok(u));
    PartStays(Amp, st3);
    AheadPast(b, [i] + ([u] + ([Amp] + EntityEnds())), 0, [], 0, ENTITY_LIMIT);
    AheadPast(i, [u] + ([Amp] + EntityEnds()), 0, st1, 3, ENTITY_LIMIT);
    AheadPast(u, [Amp] + EntityEnds(), 0, st2, 6, ENTITY_LIMIT);
    AheadHere(Amp, EntityEnds(), 0, st3, 9, ENTITY_LIMIT);
  }

  lemma AmpHalved()
    ensures Halves(AMP, 3) && !IsTag(AMP)
  {
    assert EntityEnd(AMP, 4) == 4 && EntityEnd(AMP, 3) == 4 && EntityEnd(AMP, 2) == 4 && EntityEnd(AMP, 1) == 4;
    assert AMP[0..] == AMP;
    assert EntityLen(AMP[0..]) == 5;
  }

  /** Cuts are not always made outside entities: whatever the first round does with this text, `&am` and the
      mark go out, and `p;` is left for the next chunk. */
  lemma EntityCutThrough()
    ensures Lex(EntityText()) == Toks(EntityParts()) && |EntityText()| > ENTITY_LIMIT && Lex(EntityText()) != []
    ensures HalvesFrom(Lex(EntityText()), [], ENTITY_LIMIT)
    ensures forall out :: Ends(Lex(EntityText()), 0, [], ENTITY_LIMIT, out) ==>
      out.Sliced? && out.tok == 3 && Lex(EntityText())[3] == AMP && out.room == 3
      && out.chunk == "<b><i><u>&am\U{2026}</u></i></b>"
    ensures !KeepsAll(Beginning(EntityText()), ENTITY_LIMIT, true)
  {
    hide Ends;
    hide AheadOf;
    hide Tok;
    hide Lex;
    hide IsTag;
    hide Halves;
    EntityLaid();
    LaidLexes(EntityParts());
    EntityLength();
    EntityAhead();
    AmpHalved();
    var toks := Toks(EntityParts());
    assert Openers([]) == "" && toks[0..] == toks;
    forall out | Ends(toks, 0, [], ENTITY_LIMIT, out)
      ensures out.Sliced? && out.tok == 3 && toks[3] == AMP && out.room == 3 && out.chunk == "<b><i><u>&am\U{2026}</u></i></b>"
    {
      RoundHalves(toks, 0, [], ENTITY_LIMIT, out);
      SlicedAhead(toks, 0, [], ENTITY_LIMIT, out);
      EntityChunk(out.tok);
    }
    HalvedGivesUp(EntityText(), ENTITY_LIMIT);
  }

  /** Only one of the tokens is the entity, and this is the chunk that ends in it. */
  lemma EntityChunk(k: nat)
    requires k < |Toks(EntityParts())| && Toks(EntityParts())[k] == AMP
    ensures k == 3 && SlicedText(Toks(EntityParts()), 0, 3, 3, []) == "<b><i><u>&am\U{2026}</u></i></b>"
  {
    hide StackAt;
    hide Closers;
    hide Toks;
    var toks := Toks(EntityParts());
    EntityTokens();
    EntityStack(toks);
    assert toks[0..3] == ["<b>", "<i>", "<u>"];
    ThreeTogether("<b>", "<i>", "<u>");
    assert toks[3][..3] == "&am";
    assert Openers([]) == "";
  }

  lemma EntityStack(toks: seq<string>)
    requires |toks| >= 3 && toks[0] == "<b>" && toks[1] == "<i>" && toks[2] == "<u>"
    ensures Closers(StackAt(toks, 0, 3, [])) == "</u></i></b>"
  {
    hide Applied;
    hide StackAt;
    hide LenAt;
    hide Closers;
    hide Tok;
    var b, i, u := Open("b", "<b>"), Open("i", "<i>"), Open("u", "<u>");
    TokTexts();
    PartApplies(Start("b"), []);
    PartApplies(Start("i"), [b]);
    PartApplies(Start("u"), [b, i]);
    AtStart(toks, 0, []);
    AtNext(toks, 0, 0, []);
    AtNext(toks, 0, 1, []);
    AtNext(toks, 0, 2, []);
    assert [] + [b] == [b] && [b] + [i] == [b, i] && [b, i] + [u] == [b, i, u];
    EntityClosers(b, i, u);
  }

  lemma TokTexts()
    ensures Tok(Start("b")) == "<b>" && Tok(Start("i")) == "<i>" && Tok(Start("u")) == "<u>" && Tok(Amp) == "&amp;"
    ensures Tok(End("b")) == "</b>" && Tok(End("i")) == "</i>" && Tok(End("u")) == "</u>"
  {
    assert "</" + "b" + ">" == "</b>" && "</" + "i" + ">" == "</i>" && "</" + "u" + ">" == "</u>";
  }

  lemma ThreeTogether(x: string, y: string, z: string)
    ensures Flatten([x, y, z]) == x + y + z
  {
    FlattenOne(z);
    assert [x, y, z][1..] == [y, z] && [y, z][1..] == [z];
    assert x + (y + z) == x + y + z;
  }

  lemma EntityClosers(b: Open, i: Open, u: Open)
    requires b.name == "b" && i.name == "i" && u.name == "u"
    ensures Closers([b, i, u]) == "</u></i></b>"
  {
    assert [b, i, u][..2] == [b, i] && [b, i][..1] == [b] && [b][..0] == [];
    assert Closers([]) == "";
    assert Closers([b]) == "</b>" && Closers([b, i]) == "</i></b>";
  }

  lemma EntityTokens()
    ensures Toks(EntityParts()) == ["<b>", "<i>", "<u>", "&amp;", "</u>", "</i>", "</b>"]
  {
    hide Tok;
    TokTexts();
    var ends := EntityEnds();
    ToksFirst(End("b"), []);
    ToksFirst(End("i"), [End("b")] + []);
    ToksFirst(End("u"), [End("i")] + ([End("b")] + []));
    ToksFirst(Amp, ends);
    ToksFirst(Start("u"), [Amp] + ends);
    ToksFirst(Start("i"), [Start("u")] + ([Amp] + ends));
    ToksFirst(Start("b"), [Start("i")] + ([Start("u")] + ([Amp] + ends)));
    assert Toks([]) == [];
  }

  lemma ToksFirst(p: Part, more: seq<Part>)
    ensures Toks([p] + more) == [Tok(p)] + Toks(more)
  {
    assert ([p] + more)[1..] == more;
  }

  lemma SlicedAhead(toks: seq<string>, i: nat, carry: Stack, limit: nat, out: Outcome)
    requires i < |toks| && |Openers(carry)| <= limit && Ends(toks, i, carry, limit, out) && out.Sliced?
    ensures i <= out.tok < |toks| && AheadOf(toks[i..], carry, limit) == Blocked(toks[out.tok], out.room)
    ensures out.chunk == SlicedText(toks, i, out.tok, out.room, carry)
  {
    hide AheadOf;
    RoundMeets(toks, i, carry, limit, out);
  }

  lemma HalvedGivesUp(text: string, limit: nat)
    requires Lex(text) != [] && HalvesFrom(Lex(text), [], limit)
    ensures !KeepsAll(Beginning(text), limit, true)
  {
    hide HalvesFrom;
    hide Lex;
    assert Rest(Beginning(text)) == Lex(text);
  }

  // ---- a paragraph break before a line break ------------------------------------------------

  function Run(c: char, n: nat): (s: string)
    ensures |s| == n && forall k :: 0 <= k < n ==> s[k] == c
  {
    seq(n, _ => c)
  }

  /** 60 a, an empty line, 20 b, a new line, 40 c. */
  function ParagraphToks(): seq<string> {
    [Run('a', 60), "\n\n", Run('b', 20), "\n", Run('c', 40)]
  }

  function ParagraphText(): string {
    Run('a', 60) + ("\n\n" + (Run('b', 20) + ("\n" + (Run('c', 40) + ""))))
  }

  const PARAGRAPH_LIMIT: nat := 100

  lemma FeedsLex(feeds: string, rest: string)
    requires feeds != "" && (forall k :: 0 <= k < |feeds| ==> feeds[k] == '\n') && (rest == "" || !IsSpace(rest[0]))
    ensures TokenLen(feeds + rest) == |feeds|
  {
    var s := feeds + rest;
    assert s[0] == '\n' && IsSpace('\n');
    assert forall k :: 0 <= k < |feeds| ==> s[k] == feeds[k] == '\n';
    var r := SkipSpace(s, 0);
    assert r >= |feeds| by {
      assert forall k :: 0 <= k < |feeds| ==> IsSpace(s[k]);
    }
    if rest != "" { assert s[|feeds|] == rest[0]; }
  }

  lemma LexesTo(head: string, rest: string)
    requires head != "" && TokenLen(head + rest) == |head|
    ensures Lex(head + rest) == [head] + Lex(rest)
  {
    assert (head + rest)[..|head|] == head && (head + rest)[|head|..] == rest;
  }

  lemma FeedEndsWord()
    ensures !IsWordChar('\n') && !IsSpace('b') && !IsSpace('c')
  {
  }

  lemma ParagraphLexes()
    ensures Lex(ParagraphText()) == ParagraphToks()
  {
    hide TokenLen;
    hide IsWordChar;
    hide IsSpace;
    var a, b, c := Run('a', 60), Run('b', 20), Run('c', 40);
    var r4 := c + "";
    var r3 := "\n" + r4;
    var r2 := b + r3;
    var r1 := "\n\n" + r2;
    FeedEndsWord();
    LettersLex(c, "");
    LexesTo(c, "");
    FeedsLex("\n", r4);
    LexesTo("\n", r4);
    LettersLex(b, r3);
    LexesTo(b, r3);
    FeedsLex("\n\n", r2);
    LexesTo("\n\n", r2);
    LettersLex(a, r1);
    LexesTo(a, r1);
    assert Lex("") == [];
    assert [a] + (["\n\n"] + ([b] + (["\n"] + ([c] + [])))) == ParagraphToks();
  }

  lemma WordIs(word: string, st: Stack)
    requires Letters(word)
    ensures !IsBlank(word) && Applied(st, word) == st
  {
    NoSpaceHere(word[0]);
  }

  lemma FeedIs(feeds: string, st: Stack)
    requires feeds == "\n" || feeds == "\n\n"
    ensures IsBlank(feeds) && Applied(st, feeds) == st
    ensures Has(feeds, "\n\n") <==> feeds == "\n\n"
  {
    assert IsSpace('\n');
    if feeds == "\n\n" { assert At(feeds, "\n\n", 0); }
  }

  /** Where the chunk stands at each of the five tokens. */
  lemma ParagraphWalk()
    ensures var toks := ParagraphToks();
            && (forall k :: 0 <= k <= 5 ==> StackAt(toks, 0, k, []) == [])
            && LenAt(toks, 0, 0, []) == 0 && LenAt(toks, 0, 1, []) == 60 && LenAt(toks, 0, 2, []) == 62
            && LenAt(toks, 0, 3, []) == 82 && LenAt(toks, 0, 4, []) == 83 && LenAt(toks, 0, 5, []) == 123
  {
    hide StackAt;
    hide LenAt;
    hide Applied;
    hide IsBlank;
    var toks := ParagraphToks();
    AtStart(toks, 0, []);
    WordIs(toks[0], []);
    FeedIs(toks[1], []);
    WordIs(toks[2], []);
    FeedIs(toks[3], []);
    WordIs(toks[4], []);
    AtNext(toks, 0, 0, []);
    AtNext(toks, 0, 1, []);
    AtNext(toks, 0, 2, []);
    AtNext(toks, 0, 3, []);
    AtNext(toks, 0, 4, []);
    assert Openers([]) == "";
  }

  lemma ParagraphPlaces()
    ensures var toks := ParagraphToks();
            && OverflowsAt(toks, 0, 4, [], PARAGRAPH_LIMIT)
            && Admissible(toks, 0, 1, [], PARAGRAPH_LIMIT) && FullEnough(toks, 0, 1, [], PARAGRAPH_LIMIT)
            && (forall k :: 0 <= k <= 4 && Admissible(toks, 0, k, [], PARAGRAPH_LIMIT) && IsOf(toks[k], ParagraphBreak) ==> k == 1)
            && IsOf(toks[1], ParagraphBreak)
  {
    hide StackAt;
    hide IsBlank;
    var toks := ParagraphToks();
    ParagraphWalk();
    assert Openers([]) == "" && Closers([]) == "";
    WordIs(toks[0], []);
    FeedIs(toks[1], []);
    WordIs(toks[2], []);
    FeedIs(toks[3], []);
    WordIs(toks[4], []);
    assert LenAt(toks, 0, 1, []) == |Flatten(toks[0..1])|;
  }

  /** Whatever the first round does with this text, it ends at the empty line, although more would fit up to
      the new line behind it. */
  lemma ParagraphFirst(out: Outcome)
    requires Ends(Lex(ParagraphText()), 0, [], PARAGRAPH_LIMIT, out)
    ensures |ParagraphText()| > PARAGRAPH_LIMIT && out.AtBreak? && out.tok == 1 && out.chunk == Run('a', 60)
  {
    hide StackAt;
    hide IsBlank;
    hide LenAt;
    hide Admissible;
    hide FullEnough;
    hide IsOf;
    hide OverflowsAt;
    hide BreakPassed;
    hide Lex;
    hide BreaksBefore;
    var toks := ParagraphToks();
    ParagraphLexes();
    ParagraphPlaces();
    ParagraphWalk();
    assert Openers([]) == "" && Closers([]) == "";
    AdmissibleIs(toks, 0, 1, [], PARAGRAPH_LIMIT);
    PassedOne(toks, 0, 4, 1, [], PARAGRAPH_LIMIT);
    CutsAtBreak(toks, 0, [], PARAGRAPH_LIMIT, out);
    var j := BreakChoice(toks, 0, [], PARAGRAPH_LIMIT, out);
    OneOverflow(toks, 0, 4, j, [], PARAGRAPH_LIMIT);
    assert toks[0..1] == [toks[0]];
    assert Flatten([toks[0]]) == toks[0] by { FlattenOne(toks[0]); }
    assert toks[0] + "" == toks[0] && "" + toks[0] == toks[0];
  }

  lemma PassedOne(toks: seq<string>, i: nat, j: nat, k: nat, carry: Stack, limit: nat)
    requires OverflowsAt(toks, i, j, carry, limit) && i <= k <= j && BreakAt(toks, i, k, carry, limit, Tier(toks[k]))
    ensures BreakPassed(toks, i, carry, limit)
  {
    hide OverflowsAt;
    hide BreakAt;
  }
}
