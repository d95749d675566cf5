/** One round of the splitter: where a chunk ends and what it holds. */
module TgCut {
  import opened Text
  import opened TgMarkup
  import opened TgLex
  import opened TgChunk
  import opened TgWalk

  // ---- one chunk --------------------------------------------------------------

  /** The break at token k is the one preferred when the walk from i overflows at j. */
  ghost predicate BreaksBefore(toks: seq<string>, i: nat, j: nat, k: nat, carry: Stack, limit: nat)
    requires |Openers(carry)| <= limit
  {
    && OverflowsAt(toks, i, j, carry, limit) && i < k <= j
    && exists best, t :: LastBreaks(toks, i, j + 1, carry, limit, best) && Preferred(best, MinFill(limit, |Openers(carry)|), t)
                         && best[t] == BreakOf(toks, i, k, carry)
  }

  /** The walk from i overflows at j without having passed a break. */
  ghost predicate NoBreakBefore(toks: seq<string>, i: nat, j: nat, carry: Stack, limit: nat) {
    && OverflowsAt(toks, i, j, carry, limit)
    && forall k, t :: i <= k <= j ==> !BreakAt(toks, i, k, carry, limit, t)
  }

  /** What is left of the limit for part of token j, after the closers and the mark. */
  function RoomAt(toks: seq<string>, i: nat, j: nat, carry: Stack, limit: nat): int
    requires i <= j <= |toks|
  {
    limit - LenAt(toks, i, j, carry) - |Closers(StackAt(toks, i, j, carry))| - |HARD_CUT_MARK|
  }

  /** Which of the five exits one round of the splitter takes, and with what. */
  ghost predicate Ends(toks: seq<string>, i: nat, carry: Stack, limit: nat, out: Outcome)
    requires i < |toks| && |Openers(carry)| <= limit
  {
    match out
    case Tail(c) =>
      && (forall k :: i < k <= |toks| ==> Fits(toks, i, k, carry, limit))
      && c == ChunkText(toks, i, |toks|, carry) && |c| <= limit
    case AtBreak(c, st, k) =>
      && i < k < |toks| && IsBlank(toks[k])
      && (exists j :: BreaksBefore(toks, i, j, k, carry, limit))
      && c == ChunkText(toks, i, k, carry) && st == StackAt(toks, i, k, carry) && |c| <= limit
    case AtEdge(c, st, j) =>
      && NoBreakBefore(toks, i, j, carry, limit) && i < j && SomeContent(toks, i, j)
      && c == ChunkText(toks, i, j, carry) && st == StackAt(toks, i, j, carry) && |c| <= limit
    case Sliced(c, st, j, room) =>
      && NoBreakBefore(toks, i, j, carry, limit) && !SomeContent(toks, i, j)
      && !IsTag(toks[j]) && 0 < room < |toks[j]| && room == RoomAt(toks, i, j, carry, limit)
      && c == SlicedText(toks, i, j, room, carry) && st == StackAt(toks, i, j, carry) && |c| == limit
    case Dropped(j) =>
      && NoBreakBefore(toks, i, j, carry, limit) && !SomeContent(toks, i, j)
      && (IsTag(toks[j]) || RoomAt(toks, i, j, carry, limit) <= 0)
  }

  lemma PartsText(toks: seq<string>, i: nat, k: nat, j: nat, carry: Stack)
    requires i <= k <= j <= |toks|
    ensures Flatten(([Openers(carry)] + toks[i..j])[..k - i + 1]) == Openers(carry) + Flatten(toks[i..k])
  {
    assert ([Openers(carry)] + toks[i..j])[..k - i + 1] == [Openers(carry)] + toks[i..k];
    assert ([Openers(carry)] + toks[i..k])[1..] == toks[i..k];
  }

  lemma NoBreaks(toks: seq<string>, i: nat, j: nat, carry: Stack, limit: nat, best: map<int, Break>)
    requires OverflowsAt(toks, i, j, carry, limit) && LastBreaks(toks, i, j + 1, carry, limit, best)
    requires best == map[]
    ensures NoBreakBefore(toks, i, j, carry, limit)
  {
  }

  lemma BreakKeys(toks: seq<string>, i: nat, j: nat, carry: Stack, limit: nat, best: map<int, Break>)
    requires i <= j <= |toks| && LastBreaks(toks, i, j, carry, limit, best)
    ensures best.Keys <= {1, 2, 3}
    ensures forall t :: t in best ==> i < best[t].tok < j && IsBlank(toks[best[t].tok])
                                      && Fits(toks, i, best[t].tok, carry, limit)
  {
    AtStart(toks, i, carry);
    forall t | t in best ensures t in {1, 2, 3} && i < best[t].tok {
      assert BreakAt(toks, i, best[t].tok, carry, limit, t);
    }
  }

  lemma OverflowRoom(toks: seq<string>, i: nat, j: nat, carry: Stack, limit: nat)
    requires OverflowsAt(toks, i, j, carry, limit) && !IsTag(toks[j])
    ensures RoomAt(toks, i, j, carry, limit) < |toks[j]|
  {
    AtNext(toks, i, j, carry);
  }

  /** The exits of a round that passed no break. */
  method CutWithoutBreak(toks: seq<string>, i: nat, j: nat, carry: Stack, limit: nat, hasContent: bool, body: string)
    returns (out: Outcome)
    requires NoBreakBefore(toks, i, j, carry, limit) && |Openers(carry)| <= limit
    requires hasContent <==> SomeContent(toks, i, j)
    requires body == Openers(carry) + Flatten(toks[i..j])
    ensures Ends(toks, i, carry, limit, out) && !out.Tail? && !out.AtBreak?
  {
    hide ReadToks;
    hide Openers;
    hide Closers;
    hide IsTag;
    hide Flatten;
    hide StackAt;
    hide BreakAt;
    var stack := StackAt(toks, i, j, carry);
    if j > i && hasContent {
      assert Fits(toks, i, j, carry, limit);
      return AtEdge(body + Closers(stack), stack, j);
    }
    var tok := toks[j];
    var room := limit - |body| - |Closers(stack)| - |HARD_CUT_MARK|;
    if IsTag(tok) || room <= 0 {
      return Dropped(j);
    }
    OverflowRoom(toks, i, j, carry, limit);
    assert body + tok[..room] + HARD_CUT_MARK == body + (tok[..room] + HARD_CUT_MARK);
    return Sliced(body + tok[..room] + HARD_CUT_MARK + Closers(stack), stack, j, room);
  }

  /** Ending at a preferred break is a legitimate end. */
  lemma BreakEnds(toks: seq<string>, i: nat, j: nat, carry: Stack, limit: nat, best: map<int, Break>, b: Break)
    requires OverflowsAt(toks, i, j, carry, limit) && LastBreaks(toks, i, j + 1, carry, limit, best)
    requires |Openers(carry)| <= limit
    requires exists t :: Preferred(best, MinFill(limit, |Openers(carry)|), t) && best[t] == b
    ensures i < b.tok <= j && b.parts == b.tok - i + 1 && b.stack == StackAt(toks, i, b.tok, carry)
    ensures Ends(toks, i, carry, limit, AtBreak(ChunkText(toks, i, b.tok, carry), b.stack, b.tok))
  {
    hide ReadToks;
    hide Openers;
    hide Closers;
    hide IsTag;
    hide LastBreaks;
    hide AllSpace;
    hide Flatten;
    hide StackAt;
    hide BreakAt;
    BreakKeys(toks, i, j + 1, carry, limit, best);
    var t :| Preferred(best, MinFill(limit, |Openers(carry)|), t) && best[t] == b;
    hide Preferred;
    PreferredIn(best, MinFill(limit, |Openers(carry)|), t);
    BreakShape(toks, i, j + 1, carry, limit, best, t);
    assert BreaksBefore(toks, i, j, b.tok, carry, limit);
  }

  /** One round: fill a chunk from token i on and decide where it ends. */
  method NextCut(toks: seq<string>, i: nat, carry: Stack, limit: nat) returns (out: Outcome)
    requires i < |toks| && |Openers(carry)| <= limit
    ensures Ends(toks, i, carry, limit, out)
  {
    hide Ends;
    hide ReadToks;
    hide Openers;
    hide Closers;
    hide IsTag;
    hide LastBreaks;
    hide Preferred;
    hide AllSpace;
    hide Flatten;
    hide StackAt;
    hide BreakAt;
    hide NoBreakBefore;
    hide OverflowsAt;
    hide SomeContent;
    hide Fits;
    hide MinFill;
    var j, overflowed, hasContent, parts, stack, best := Fill(toks, i, carry, limit);
    PartsText(toks, i, j, j, carry);
    assert parts[..j - i + 1] == parts;
    if !overflowed {
      out := Tail(Flatten(parts) + Closers(stack));
      assert Fits(toks, i, j, carry, limit);
      TailEnds(toks, i, carry, limit);
    } else {
      BreakKeys(toks, i, j + 1, carry, limit, best);
      var pick := Pick(best, MinFill(limit, |Openers(carry)|));
      if pick.None? {
        NoBreaks(toks, i, j, carry, limit, best);
        out := CutWithoutBreak(toks, i, j, carry, limit, hasContent, Flatten(parts));
      } else {
        var b := pick.value;
        BreakEnds(toks, i, j, carry, limit, best, b);
        PartsText(toks, i, b.tok, j, carry);
        out := AtBreak(Flatten(parts[..b.parts]) + Closers(b.stack), b.stack, b.tok);
      }
    }
  }

  lemma TailEnds(toks: seq<string>, i: nat, carry: Stack, limit: nat)
    requires i < |toks| && |Openers(carry)| <= limit
    requires forall k :: i < k <= |toks| ==> Fits(toks, i, k, carry, limit)
    ensures Ends(toks, i, carry, limit, Tail(ChunkText(toks, i, |toks|, carry)))
  {
    assert Fits(toks, i, |toks|, carry, limit);
  }

  lemma PreferredIn(best: map<int, Break>, minFill: nat, t: int)
    requires Preferred(best, minFill, t)
    ensures t in best
  {
  }

  lemma BreakShape(toks: seq<string>, i: nat, j: nat, carry: Stack, limit: nat, best: map<int, Break>, t: int)
    requires i <= j <= |toks| && LastBreaks(toks, i, j, carry, limit, best) && t in best
    ensures i <= best[t].tok < j && best[t] == BreakOf(toks, i, best[t].tok, carry)
  {
  }
}
