/** When the splitter has to give something up, and when it never does. */
module TgBudget {
  import opened Text
  import opened TgMarkup
  import opened TgLex
  import opened TgChunk
  import opened TgWalk
  import opened TgCut
  import opened TgSigns

  // ---- texts of which nothing can be sent ---------------------------------------

  /** Can no chunk at all be made of these tokens? `st` and `used` are the open tags and the length
      of the chunk being filled, which holds nothing to show and has passed no break. */
  predicate NothingFits(toks: seq<string>, st: Stack, used: nat, limit: nat) {
    if toks == [] then used == 0
    else
      var tok := toks[0];
      if used + |tok| + |Closers(Applied(st, tok))| > limit then
        && (IsTag(tok) || used + |Closers(st)| + |HARD_CUT_MARK| >= limit)
        && !(IsBlank(tok) && used > 0 && !(Tier(tok) == 1 && InPre(st)))
        && NothingFits(toks[1..], [], 0, limit)
      else
        && !IsContent(tok)
        && !(IsBlank(tok) && used > 0 && !(Tier(tok) == 1 && InPre(st)))
        && NothingFits(toks[1..], Applied(st, tok), used + |tok|, limit)
  }

  predicate FitsNothingFrom(toks: seq<string>, i: nat, k: nat, limit: nat)
    requires i <= k <= |toks|
  {
    NothingFits(toks[k..], StackAt(toks, i, k, []), LenAt(toks, i, k, []), limit)
  }

  /** One token of the walk, in terms of positions. */
  lemma FitsNothingStep(toks: seq<string>, i: nat, k: nat, limit: nat)
    requires i <= k < |toks| && (k == i || Fits(toks, i, k, [], limit))
    ensures FitsNothingFrom(toks, i, k, limit) <==>
            (&& !BreakAt(toks, i, k, [], limit, Tier(toks[k]))
             && if Fits(toks, i, k + 1, [], limit)
                then !IsContent(toks[k]) && FitsNothingFrom(toks, i, k + 1, limit)
                else (IsTag(toks[k]) || RoomAt(toks, i, k, [], limit) <= 0)
                     && NothingFits(toks[k + 1..], [], 0, limit))
  {
    hide ParseTag;
    hide Tier;
    hide IsBlank;
    hide InPre;
    hide StackAt;
    hide LenAt;
    hide Closers;
    hide Applied;
    hide IsTag;
    AtNext(toks, i, k, []);
    assert toks[k..][1..] == toks[k + 1..];
    assert toks[k..][0] == toks[k];
    BreakTest(toks, i, k, [], limit);
    if k == i { AtStart(toks, i, []); }
  }

  lemma {:induction false} FitsNothingChain(toks: seq<string>, i: nat, k: nat, limit: nat)
    requires i <= k <= |toks|
    requires forall m :: i < m <= k ==> Fits(toks, i, m, [], limit)
    ensures FitsNothingFrom(toks, i, i, limit) ==> FitsNothingFrom(toks, i, k, limit)
    ensures !SomeContent(toks, i, k) && (forall m :: i <= m < k ==> !BreakAt(toks, i, m, [], limit, Tier(toks[m])))
            ==> (FitsNothingFrom(toks, i, i, limit) <==> FitsNothingFrom(toks, i, k, limit))
    decreases k
  {
    hide Fits;
    hide FitsNothingFrom;
    hide BreakAt;
    hide IsContent;
    hide Tier;
    hide RoomAt;
    hide IsTag;
    if i < k {
      FitsNothingChain(toks, i, k - 1, limit);
      FitsNothingStep(toks, i, k - 1, limit);
      if SomeContent(toks, i, k - 1) { }
    }
  }

  lemma BreakFits(toks: seq<string>, i: nat, j: nat, k: nat, limit: nat)
    requires |Openers([])| <= limit && BreaksBefore(toks, i, j, k, [], limit)
    ensures !FitsNothingFrom(toks, i, i, limit)
  {
    BreakIsOne(toks, i, j, k, [], limit);
    hide Fits;
    hide BreakAt;
    hide FitsNothingFrom;
    hide Tier;
    hide RoomAt;
    hide LastBreaks;
    FitsNothingChain(toks, i, k, limit);
    FitsNothingStep(toks, i, k, limit);
  }

  lemma EdgeFits(toks: seq<string>, i: nat, j: nat, limit: nat)
    requires OverflowsAt(toks, i, j, [], limit) && SomeContent(toks, i, j)
    ensures !FitsNothingFrom(toks, i, i, limit)
  {
    hide Fits;
    hide BreakAt;
    hide FitsNothingFrom;
    hide Tier;
    hide RoomAt;
    hide IsContent;
    var k :| i <= k < j && IsContent(toks[k]);
    FitsNothingChain(toks, i, k, limit);
    FitsNothingStep(toks, i, k, limit);
  }

  lemma SlicedOrDropped(toks: seq<string>, i: nat, j: nat, limit: nat)
    requires NoBreakBefore(toks, i, j, [], limit) && !SomeContent(toks, i, j)
    ensures FitsNothingFrom(toks, i, i, limit) <==>
            (IsTag(toks[j]) || RoomAt(toks, i, j, [], limit) <= 0) && NothingFits(toks[j + 1..], [], 0, limit)
  {
    hide Fits;
    hide BreakAt;
    hide FitsNothingFrom;
    hide Tier;
    hide RoomAt;
    hide IsTag;
    hide NothingFits;
    hide IsContent;
    FitsNothingChain(toks, i, j, limit);
    FitsNothingStep(toks, i, j, limit);
  }

  /** A round that starts with nothing open sends something unless nothing can be sent. */
  lemma RoundFits(toks: seq<string>, i: nat, limit: nat, out: Outcome)
    requires i < |toks| && Clean(toks[i..]) && |Openers([])| <= limit && Ends(toks, i, [], limit, out)
    ensures out.Dropped? ==> i <= out.tok < |toks|
    ensures out.Dropped? ==>
      (NothingFits(toks[i..], [], 0, limit) <==> NothingFits(toks[out.tok + 1..], [], 0, limit))
    ensures !out.Dropped? ==> !NothingFits(toks[i..], [], 0, limit)
  {
    hide Fits;
    hide BreakAt;
    hide RoomAt;
    hide IsTag;
    hide Clean;
    hide IsBlank;
    hide NothingFits;
    AtStart(toks, i, []);
    assert NothingFits(toks[i..], [], 0, limit) == FitsNothingFrom(toks, i, i, limit);
    hide FitsNothingFrom;
    hide BreaksBefore;
    hide LenAt;
    hide StackAt;
    hide SomeContent;
    hide ChunkText;
    hide SlicedText;
    hide Openers;
    match out
    case Tail(_) =>
      FitsNothingChain(toks, i, |toks|, limit);
      TextLeft(toks, i, limit);
    case AtBreak(_, _, k) =>
      var j :| BreaksBefore(toks, i, j, k, [], limit);
      BreakFits(toks, i, j, k, limit);
    case AtEdge(_, _, j) =>
      EdgeFits(toks, i, j, limit);
    case Sliced(_, _, j, _) =>
      SlicedOrDropped(toks, i, j, limit);
    case Dropped(j) =>
      SlicedOrDropped(toks, i, j, limit);
  }

  /** Tokens were taken, so the chunk is not empty. */
  lemma TextLeft(toks: seq<string>, i: nat, limit: nat)
    requires i < |toks| && Clean(toks[i..])
    ensures !FitsNothingFrom(toks, i, |toks|, limit)
  {
    hide Clean;
    assert toks[i..|toks|] == toks[i..];
    FlattenNonEmpty(toks[i..]);
  }

  lemma TierOfBreak(toks: seq<string>, i: nat, k: nat, carry: Stack, limit: nat, t: int)
    requires i <= k < |toks| && BreakAt(toks, i, k, carry, limit, t)
    ensures t == Tier(toks[k])
  {
  }

  // ---- when a round drops a token, and when it cuts one --------------------------

  /** Could a chunk end at this token? `base` is what it began with, `used` what it holds so far. */
  predicate Breaks(tok: string, base: nat, st: Stack, used: nat, limit: nat) {
    IsBlank(tok) && used > base && !(Tier(tok) == 1 && InPre(st)) && used + |Closers(st)| <= limit
  }

  /** A token that does not fit, and the room there is for a part of it. */
  datatype Obstacle = Clear | Blocked(tok: string, room: int)

  /** What a chunk being filled runs into without having shown anything or passed a break. */
  function Ahead(toks: seq<string>, base: nat, st: Stack, used: nat, limit: nat): Obstacle {
    if toks == [] || Breaks(toks[0], base, st, used, limit) then Clear
    else if used + |toks[0]| + |Closers(Applied(st, toks[0]))| > limit
    then Blocked(toks[0], limit - used - |Closers(st)| - |HARD_CUT_MARK|)
    else if IsContent(toks[0]) then Clear
    else Ahead(toks[1..], base, Applied(st, toks[0]), used + |toks[0]|, limit)
  }

  /** The same for a chunk that begins here, with these tags reopened. */
  function AheadOf(toks: seq<string>, st: Stack, limit: nat): Obstacle {
    Ahead(toks, |Openers(st)|, st, |Openers(st)|, limit)
  }

  /** Does it run into something that can neither be taken nor cut? */
  predicate StuckFrom(toks: seq<string>, st: Stack, limit: nat) {
    var o := AheadOf(toks, st, limit);
    o.Blocked? && (IsTag(o.tok) || o.room <= 0)
  }

  /** Does it run into something that has to be cut, and the cut goes through an entity? */
  predicate HalvesFrom(toks: seq<string>, st: Stack, limit: nat) {
    var o := AheadOf(toks, st, limit);
    o.Blocked? && !IsTag(o.tok) && o.room > 0 && Halves(o.tok, o.room)
  }

  function AheadAt(toks: seq<string>, i: nat, k: nat, carry: Stack, limit: nat): Obstacle
    requires i <= k <= |toks|
  {
    Ahead(toks[k..], |Openers(carry)|, StackAt(toks, i, k, carry), LenAt(toks, i, k, carry), limit)
  }

  lemma AheadStep(toks: seq<string>, i: nat, k: nat, carry: Stack, limit: nat)
    requires i <= k < |toks|
    ensures AheadAt(toks, i, k, carry, limit) ==
      if BreakAt(toks, i, k, carry, limit, Tier(toks[k])) then Clear
      else if !Fits(toks, i, k + 1, carry, limit) then Blocked(toks[k], RoomAt(toks, i, k, carry, limit))
      else if IsContent(toks[k]) then Clear
      else AheadAt(toks, i, k + 1, carry, limit)
  {
    hide ParseTag;
    hide Tier;
    hide IsBlank;
    hide InPre;
    hide StackAt;
    hide LenAt;
    hide Closers;
    hide Openers;
    hide Applied;
    hide IsTag;
    AtNext(toks, i, k, carry);
    assert toks[k..][1..] == toks[k + 1..];
    assert toks[k..][0] == toks[k];
    BreakTest(toks, i, k, carry, limit);
  }

  /** Tokens that fit, show nothing and are no breaks do not change what is ahead. */
  lemma {:induction false} AheadChain(toks: seq<string>, i: nat, k: nat, carry: Stack, limit: nat)
    requires i <= k <= |toks|
    requires forall m :: i < m <= k ==> Fits(toks, i, m, carry, limit)
    ensures AheadAt(toks, i, i, carry, limit) ==
      if SomeContent(toks, i, k) || (exists m :: i <= m < k && BreakAt(toks, i, m, carry, limit, Tier(toks[m]))) then Clear
      else AheadAt(toks, i, k, carry, limit)
    decreases k
  {
    hide Fits;
    hide AheadAt;
    hide BreakAt;
    hide IsContent;
    hide Tier;
    hide RoomAt;
    hide IsTag;
    if i < k {
      AheadChain(toks, i, k - 1, carry, limit);
      AheadStep(toks, i, k - 1, carry, limit);
      if SomeContent(toks, i, k - 1) { }
    }
  }

  /** A round that passes no break and shows nothing ends at what is ahead of it, and no other round has
      anything ahead of it. */
  lemma RoundMeets(toks: seq<string>, i: nat, carry: Stack, limit: nat, out: Outcome)
    requires i < |toks| && |Openers(carry)| <= limit && Ends(toks, i, carry, limit, out)
    ensures AheadOf(toks[i..], carry, limit) ==
      if out.Sliced? then Blocked(toks[out.tok], out.room)
      else if out.Dropped? then Blocked(toks[out.tok], RoomAt(toks, i, out.tok, carry, limit))
      else Clear
  {
    hide Fits;
    hide BreakAt;
    hide RoomAt;
    hide IsTag;
    hide IsBlank;
    hide Ahead;
    hide Tier;
    AtStart(toks, i, carry);
    assert AheadOf(toks[i..], carry, limit) == AheadAt(toks, i, i, carry, limit);
    hide AheadAt;
    hide AheadOf;
    hide BreaksBefore;
    hide LenAt;
    hide StackAt;
    hide IsContent;
    hide ChunkText;
    hide SlicedText;
    hide Openers;
    match out
    case Tail(_) =>
      AheadChain(toks, i, |toks|, carry, limit);
      NothingLeft(toks, i, carry, limit);
    case AtBreak(_, _, k) =>
      var j :| BreaksBefore(toks, i, j, k, carry, limit);
      BreakIsOne(toks, i, j, k, carry, limit);
      AheadChain(toks, i, k, carry, limit);
      AheadStep(toks, i, k, carry, limit);
    case AtEdge(_, _, j) => AheadChain(toks, i, j, carry, limit);
    case Sliced(_, _, j, _) => BlockedAhead(toks, i, j, carry, limit);
    case Dropped(j) => BlockedAhead(toks, i, j, carry, limit);
  }

  lemma BlockedAhead(toks: seq<string>, i: nat, j: nat, carry: Stack, limit: nat)
    requires NoBreakBefore(toks, i, j, carry, limit) && !SomeContent(toks, i, j)
    ensures AheadAt(toks, i, i, carry, limit) == Blocked(toks[j], RoomAt(toks, i, j, carry, limit))
  {
    hide Fits;
    hide BreakAt;
    hide RoomAt;
    hide IsTag;
    hide AheadAt;
    hide IsContent;
    hide Tier;
    AheadChain(toks, i, j, carry, limit);
    AheadStep(toks, i, j, carry, limit);
  }

  /** A round drops a token exactly if the chunk it begins gets stuck. */
  lemma RoundDrops(toks: seq<string>, i: nat, carry: Stack, limit: nat, out: Outcome)
    requires i < |toks| && |Openers(carry)| <= limit && Ends(toks, i, carry, limit, out)
    ensures out.Dropped? <==> StuckFrom(toks[i..], carry, limit)
  {
    hide AheadOf;
    hide IsTag;
    hide RoomAt;
    hide NoBreakBefore;
    hide SomeContent;
    hide ChunkText;
    hide SlicedText;
    hide StackAt;
    RoundMeets(toks, i, carry, limit, out);
  }

  /** A round cuts through an entity exactly if what is ahead of it is cut there. */
  lemma RoundHalves(toks: seq<string>, i: nat, carry: Stack, limit: nat, out: Outcome)
    requires i < |toks| && |Openers(carry)| <= limit && Ends(toks, i, carry, limit, out)
    ensures out.Sliced? && Halves(toks[out.tok], out.room) <==> HalvesFrom(toks[i..], carry, limit)
  {
    hide AheadOf;
    hide IsTag;
    hide RoomAt;
    hide Halves;
    hide NoBreakBefore;
    hide SomeContent;
    hide ChunkText;
    hide SlicedText;
    hide StackAt;
    RoundMeets(toks, i, carry, limit, out);
  }

  lemma NothingLeft(toks: seq<string>, i: nat, carry: Stack, limit: nat)
    requires i <= |toks|
    ensures AheadAt(toks, i, |toks|, carry, limit) == Clear
  {}

  /** The break a round takes is one, and everything before it fits. */
  lemma BreakIsOne(toks: seq<string>, i: nat, j: nat, k: nat, carry: Stack, limit: nat)
    requires |Openers(carry)| <= limit && BreaksBefore(toks, i, j, k, carry, limit)
    ensures i < k <= j < |toks| && BreakAt(toks, i, k, carry, limit, Tier(toks[k]))
    ensures forall m :: i < m <= k ==> Fits(toks, i, m, carry, limit)
  {
    hide BreakAt;
    hide MinFill;
    hide Fits;
    var best, t :| LastBreaks(toks, i, j + 1, carry, limit, best) && Preferred(best, MinFill(limit, |Openers(carry)|), t)
                   && best[t] == BreakOf(toks, i, k, carry);
    TierOfBreak(toks, i, k, carry, limit, t);
  }

  // ---- texts of which nothing is ever given up -----------------------------------

  /** One more character and the mark. */
  const SPARE: nat := 2

  /** From here to the next thing to show, or to the next break, markup and whitespace leave room for
      `spare` characters. */
  predicate StretchFits(toks: seq<string>, base: nat, st: Stack, used: nat, limit: nat, spare: nat) {
    && used + |Closers(st)| + spare <= limit
    && (toks == [] || IsContent(toks[0]) || Breaks(toks[0], base, st, used, limit)
        || StretchFits(toks[1..], base, Applied(st, toks[0]), used + |toks[0]|, limit, spare))
  }

  /** At every token: the open tags take at most half the limit, and the stretch that a chunk would begin
      with there fits behind them. */
  predicate Roomy(toks: seq<string>, st: Stack, limit: nat, spare: nat) {
    && 2 * |Openers(st)| <= limit
    && StretchFits(toks, |Openers(st)|, st, |Openers(st)|, limit, spare)
    && (toks == [] || Roomy(toks[1..], Applied(st, toks[0]), limit, spare))
  }

  lemma {:induction false} RoomyAt(toks: seq<string>, i: nat, k: nat, carry: Stack, limit: nat, spare: nat)
    requires i <= k <= |toks| && Roomy(toks[i..], carry, limit, spare)
    ensures Roomy(toks[k..], StackAt(toks, i, k, carry), limit, spare)
    decreases k
  {
    hide StackAt;
    hide ParseTag;
    hide Applied;
    hide StretchFits;
    if k == i {
      AtStart(toks, i, carry);
    } else {
      RoomyAt(toks, i, k - 1, carry, limit, spare);
      AtNext(toks, i, k - 1, carry);
      assert toks[k - 1..][1..] == toks[k..];
    }
  }

  lemma {:induction false} StretchAt(toks: seq<string>, i: nat, k: nat, carry: Stack, limit: nat, spare: nat)
    requires i <= k <= |toks| && StretchFits(toks[i..], |Openers(carry)|, carry, |Openers(carry)|, limit, spare)
    requires !SomeContent(toks, i, k)
    requires forall m :: i <= m < k ==> !BreakAt(toks, i, m, carry, limit, Tier(toks[m]))
    ensures StretchFits(toks[k..], |Openers(carry)|, StackAt(toks, i, k, carry), LenAt(toks, i, k, carry), limit, spare)
    decreases k
  {
    hide StackAt;
    hide LenAt;
    hide ParseTag;
    hide Applied;
    hide IsContent;
    hide BreakAt;
    hide Breaks;
    if k == i {
      AtStart(toks, i, carry);
    } else {
      assert !SomeContent(toks, i, k - 1);
      StretchAt(toks, i, k - 1, carry, limit, spare);
      AtNext(toks, i, k - 1, carry);
      BreakIsBreaks(toks, i, k - 1, carry, limit);
      assert toks[k - 1..][1..] == toks[k..];
      assert toks[k - 1..][0] == toks[k - 1];
      assert !IsContent(toks[k - 1]);
    }
  }

  lemma BreakIsBreaks(toks: seq<string>, i: nat, k: nat, carry: Stack, limit: nat)
    requires i <= k < |toks|
    ensures BreakAt(toks, i, k, carry, limit, Tier(toks[k]))
       <==> Breaks(toks[k], |Openers(carry)|, StackAt(toks, i, k, carry), LenAt(toks, i, k, carry), limit)
  {
    BreakTest(toks, i, k, carry, limit);
  }

  /** With room everywhere no token is dropped, and only something to show is ever sliced, if it is longer
      than the room there is. */
  lemma RoomyRound(toks: seq<string>, i: nat, carry: Stack, limit: nat, spare: nat, out: Outcome)
    requires i < |toks| && |Openers(carry)| <= limit && spare >= SPARE
    requires Roomy(toks[i..], carry, limit, spare) && Ends(toks, i, carry, limit, out)
    ensures !out.Dropped?
    ensures out.Sliced? ==> IsContent(toks[out.tok]) && |toks[out.tok]| > spare
  {
    hide StackAt;
    hide LenAt;
    hide IsTag;
    hide IsBlank;
    hide ReadToks;
    hide Closers;
    hide Openers;
    hide BreakAt;
    hide Breaks;
    if out.Dropped? || out.Sliced? {
      var j := out.tok;
      StretchAt(toks, i, j, carry, limit, spare);
      AtNext(toks, i, j, carry);
      assert toks[j..][0] == toks[j];
      if IsContent(toks[j]) {
        ContentStays(toks[j], StackAt(toks, i, j, carry));
      } else {
        StretchStep(toks, i, j, carry, limit, spare);
      }
    }
  }

  lemma ContentStays(tok: string, st: Stack)
    requires IsContent(tok)
    ensures Applied(st, tok) == st
  {
  }

  lemma StretchStep(toks: seq<string>, i: nat, j: nat, carry: Stack, limit: nat, spare: nat)
    requires i <= j < |toks| && !IsContent(toks[j]) && !BreakAt(toks, i, j, carry, limit, Tier(toks[j]))
    requires StretchFits(toks[j..], |Openers(carry)|, StackAt(toks, i, j, carry), LenAt(toks, i, j, carry), limit, spare)
    ensures Fits(toks, i, j + 1, carry, limit)
  {
    hide StackAt;
    hide LenAt;
    hide Applied;
    hide IsContent;
    hide BreakAt;
    hide Breaks;
    AtNext(toks, i, j, carry);
    BreakIsBreaks(toks, i, j, carry, limit);
    assert toks[j..][0] == toks[j];
  }

  /** Slicing a token that shows something leaves the rest as roomy as it was. */
  lemma RoomySlice(toks: seq<string>, j: nat, room: nat, st: Stack, limit: nat, spare: nat)
    requires j < |toks| && room <= |toks[j]|
    requires IsContent(toks[j]) && IsContent(toks[j][room..])
    requires Roomy(toks[j..], st, limit, spare)
    ensures Roomy(toks[j := toks[j][room..]][j..], st, limit, spare)
  {
    hide Closers;
    hide Openers;
    hide IsBlank;
    var after := toks[j := toks[j][room..]];
    assert after[j..][1..] == toks[j..][1..];
    assert after[j..][0] == toks[j][room..];
    assert Applied(st, toks[j]) == st == Applied(st, after[j]);
  }

  // ---- a budget a caller can add up -------------------------------------------------

  /** Total length of the tags. */
  function TagText(toks: seq<string>): nat {
    if toks == [] then 0 else (if IsTag(toks[0]) then |toks[0]| else 0) + TagText(toks[1..])
  }

  /** The whitespace a chunk that begins here takes in before it shows something or passes a break: what
      it begins with, and inside code the runs without a line break. */
  function PileAhead(toks: seq<string>, first: bool, st: Stack): nat {
    if toks == [] || IsContent(toks[0]) then 0
    else if !IsBlank(toks[0]) then PileAhead(toks[1..], false, Applied(st, toks[0]))
    else if first || (Tier(toks[0]) == 1 && InPre(st)) then |toks[0]| + PileAhead(toks[1..], false, st)
    else 0
  }

  /** The largest such pile, wherever a chunk begins. */
  function MaxPile(toks: seq<string>, st: Stack): nat {
    if toks == [] then 0
    else
      var here, later := PileAhead(toks, true, st), MaxPile(toks[1..], Applied(st, toks[0]));
      if here > later then here else later
  }

  /** The longest whitespace run. */
  function LongestRun(toks: seq<string>): nat {
    if toks == [] then 0
    else
      var later := LongestRun(toks[1..]);
      if IsBlank(toks[0]) && |toks[0]| > later then |toks[0]| else later
  }

  /** No tag of the text opens code. */
  predicate NoCode(toks: seq<string>) {
    forall k :: 0 <= k < |toks| && ParseTag(toks[k]).OpenTag? ==> ParseTag(toks[k]).name !in PREFORMATTED
  }

  /** An entry of the stack was a tag of the text: reading one more tag moves its length from the
      tags to come to the open tags, or drops it. */
  lemma OpenersGrow(st: Stack, tok: string)
    ensures |Openers(Applied(st, tok))| <= |Openers(st)| + (if IsTag(tok) then |tok| else 0)
  {
    match ParseTag(tok)
    case NotATag =>
    case OpenTag(n) =>
      if n !in VOID_TAGS { assert (st + [Open(n, tok)])[..|st|] == st; }
    case CloseTag(n) =>
      var k := LastNamed(st, n);
      if k >= 0 { OpenersPrefix(st, k); }
  }

  lemma {:induction false} BudgetStretch(toks: seq<string>, base: nat, first: bool, st: Stack, used: nat, limit: nat, spare: nat)
    requires Clean(toks) && WfStack(st) && used >= base && (!first ==> used > base)
    requires 3 * (used + TagText(toks) + PileAhead(toks, first, st)) + 4 * (|Openers(st)| + TagText(toks)) + 3 * spare
             <= 3 * limit
    ensures StretchFits(toks, base, st, used, limit, spare)
    decreases |toks|
  {
    hide ParseTag;
    hide Openers;
    hide Closers;
    hide WfStack;
    hide Applied;
    hide AllSpace;
    hide Tier;
    hide InPre;
    ClosersLength(st);
    if toks != [] && !IsContent(toks[0]) && !Breaks(toks[0], base, st, used, limit) {
      if IsTag(toks[0]) { TagIsBracketed(toks[0]); }
      if IsBlank(toks[0]) { BlankStays(toks[0], st); }
      AppliedWf(st, toks[0]);
      OpenersGrow(st, toks[0]);
      BudgetStretch(toks[1..], base, false, Applied(st, toks[0]), used + |toks[0]|, limit, spare);
    }
  }

  lemma BlankStays(tok: string, st: Stack)
    requires IsBlank(tok)
    ensures !IsTag(tok) && Applied(st, tok) == st
  {
    BlankIsNoTag(tok);
  }

  /** 7/3 of the tag text, the largest pile of whitespace, and `spare` characters: if that is within the
      limit, there is room everywhere. */
  lemma {:induction false} BudgetRoomy(toks: seq<string>, st: Stack, limit: nat, spare: nat)
    requires Clean(toks) && WfStack(st)
    requires 7 * (|Openers(st)| + TagText(toks)) + 3 * MaxPile(toks, st) + 3 * spare <= 3 * limit
    ensures Roomy(toks, st, limit, spare)
    decreases |toks|
  {
    hide ParseTag;
    hide TokOk;
    hide Openers;
    hide WfStack;
    hide Applied;
    hide StretchFits;
    hide AllSpace;
    BudgetStretch(toks, |Openers(st)|, true, st, |Openers(st)|, limit, spare);
    if toks != [] {
      if IsTag(toks[0]) { TagIsBracketed(toks[0]); }
      AppliedWf(st, toks[0]);
      OpenersGrow(st, toks[0]);
      BudgetRoomy(toks[1..], Applied(st, toks[0]), limit, spare);
    }
  }

  /** The same for a whole text. */
  lemma BudgetKeepsAll(text: string, limit: nat, spare: nat)
    requires 7 * TagText(Lex(text)) + 3 * MaxPile(Lex(text), []) + 3 * spare <= 3 * limit
    ensures Roomy(Lex(text), [], limit, spare)
  {
    LexClean(text);
    BudgetRoomy(Lex(text), [], limit, spare);
  }

  // ---- the longest run, where there is no code -------------------------------------

  /** Without code a second run is always a break, so the longest run bounds every pile. */
  lemma {:induction false} PileIsRun(toks: seq<string>, first: bool, st: Stack)
    requires NoCode(toks) && !InPre(st)
    ensures PileAhead(toks, first, st) <= if first then LongestRun(toks) else 0
    decreases |toks|
  {
    hide ParseTag;
    hide AllSpace;
    if toks != [] && !IsContent(toks[0]) {
      NoCodeApplied(toks[0], st);
      assert NoCode(toks[1..]);
      if IsBlank(toks[0]) { BlankStays(toks[0], st); }
      PileIsRun(toks[1..], false, Applied(st, toks[0]));
    }
  }

  lemma NoCodeApplied(tok: string, st: Stack)
    requires !InPre(st) && (ParseTag(tok).OpenTag? ==> ParseTag(tok).name !in PREFORMATTED)
    ensures !InPre(Applied(st, tok))
  {
    hide ParseTag;
  }

  lemma {:induction false} PilesAreRuns(toks: seq<string>, st: Stack)
    requires NoCode(toks) && !InPre(st)
    ensures MaxPile(toks, st) <= LongestRun(toks)
    decreases |toks|
  {
    hide PileAhead;
    hide IsBlank;
    if toks != [] {
      PileIsRun(toks, true, st);
      NoCodeApplied(toks[0], st);
      assert NoCode(toks[1..]);
      PilesAreRuns(toks[1..], Applied(st, toks[0]));
    }
  }

  /** For a text without code: 7/3 of the tag text and the longest whitespace run. */
  lemma LongestRunKeepsAll(text: string, limit: nat, spare: nat)
    requires NoCode(Lex(text))
    requires 7 * TagText(Lex(text)) + 3 * LongestRun(Lex(text)) + 3 * spare <= 3 * limit
    ensures Roomy(Lex(text), [], limit, spare)
  {
    PilesAreRuns(Lex(text), []);
    BudgetKeepsAll(text, limit, spare);
  }
}
