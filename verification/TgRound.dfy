/** What one round of the splitter does: where it cuts, what it carries over, and that nothing else is
    possible. */
module TgRound {
  import opened Text
  import opened TgMarkup
  import opened TgLex
  import opened TgChunk
  import opened TgWalk
  import opened TgCut
  import opened TgBudget

  // ---- what is carried over, and where code is cut ---------------------------------

  lemma {:induction false} OpenersWithin(toks: seq<string>, i: nat, k: nat, carry: Stack)
    requires i <= k <= |toks|
    ensures |Openers(StackAt(toks, i, k, carry))| <= LenAt(toks, i, k, carry)
    decreases k
  {
    hide StackAt;
    hide LenAt;
    hide Openers;
    hide IsTag;
    hide Applied;
    if k == i {
      AtStart(toks, i, carry);
    } else {
      OpenersWithin(toks, i, k - 1, carry);
      AtNext(toks, i, k - 1, carry);
      OpenersGrow(StackAt(toks, i, k - 1, carry), toks[k - 1]);
    }
  }

  /** What a round carries over can be reopened and closed again within the limit. */
  lemma CarryFits(toks: seq<string>, i: nat, carry: Stack, limit: nat, out: Outcome)
    requires i < |toks| && |Openers(carry)| <= limit && Ends(toks, i, carry, limit, out)
    requires out.AtBreak? || out.AtEdge? || out.Sliced?
    ensures |Openers(out.stack)| + |Closers(out.stack)| <= limit
  {
    hide StackAt;
    hide IsTag;
    hide Openers;
    hide Closers;
    hide BreaksBefore;
    hide BreakAt;
    hide IsBlank;
    hide SomeContent;
    hide Fits;
    OpenersWithin(toks, i, out.tok, carry);
  }

  /** Was a break passed before the walk from i overflows? */
  ghost predicate BreakPassed(toks: seq<string>, i: nat, carry: Stack, limit: nat) {
    exists j: nat, k: nat, t :: OverflowsAt(toks, i, j, carry, limit) && i <= k <= j && BreakAt(toks, i, k, carry, limit, t)
  }

  lemma OneOverflow(toks: seq<string>, i: nat, j: nat, j': nat, carry: Stack, limit: nat)
    requires OverflowsAt(toks, i, j, carry, limit) && OverflowsAt(toks, i, j', carry, limit)
    ensures j == j'
  {
    if j < j' { NoneEarlier(toks, i, j, j', carry, limit); }
    if j' < j { NoneEarlier(toks, i, j', j, carry, limit); }
  }

  lemma NoneEarlier(toks: seq<string>, i: nat, j: nat, j': nat, carry: Stack, limit: nat)
    requires OverflowsAt(toks, i, j', carry, limit) && i <= j < j'
    ensures !OverflowsAt(toks, i, j, carry, limit)
  {
    hide Fits;
    assert Fits(toks, i, j + 1, carry, limit);
  }

  /** A round cuts at a break exactly if it passed one. */
  lemma CutsAtBreak(toks: seq<string>, i: nat, carry: Stack, limit: nat, out: Outcome)
    requires i < |toks| && |Openers(carry)| <= limit && Ends(toks, i, carry, limit, out)
    ensures out.AtBreak? <==> BreakPassed(toks, i, carry, limit)
  {
    hide Fits;
    hide BreakAt;
    hide RoomAt;
    hide IsTag;
    hide IsBlank;
    hide SomeContent;
    hide ChunkText;
    hide SlicedText;
    hide StackAt;
    hide Openers;
    hide BreaksBefore;
    hide Tier;
    match out
    case Tail(_) =>
      forall j: nat ensures !OverflowsAt(toks, i, j, carry, limit) { TailNoOverflow(toks, i, j, carry, limit); }
    case AtBreak(_, _, k) =>
      var j :| BreaksBefore(toks, i, j, k, carry, limit);
      BreakIsOne(toks, i, j, k, carry, limit);
      BreaksOverflow(toks, i, j, k, carry, limit);
      assert BreakAt(toks, i, k, carry, limit, Tier(toks[k]));
    case _ =>
      forall j: nat, k: nat, t | OverflowsAt(toks, i, j, carry, limit) && i <= k <= j ensures !BreakAt(toks, i, k, carry, limit, t) {
        OneOverflow(toks, i, j, out.tok, carry, limit);
      }
  }

  lemma TailNoOverflow(toks: seq<string>, i: nat, j: nat, carry: Stack, limit: nat)
    requires i <= |toks| && forall k :: i < k <= |toks| ==> Fits(toks, i, k, carry, limit)
    ensures !OverflowsAt(toks, i, j, carry, limit)
  {
    hide Fits;
  }

  lemma BreaksOverflow(toks: seq<string>, i: nat, j: nat, k: nat, carry: Stack, limit: nat)
    requires |Openers(carry)| <= limit && BreaksBefore(toks, i, j, k, carry, limit)
    ensures OverflowsAt(toks, i, j, carry, limit)
  {
    hide Fits;
  }

  lemma NoBlankNoBreak(toks: seq<string>, i: nat, carry: Stack, limit: nat)
    requires forall k :: i <= k < |toks| ==> !IsBlank(toks[k])
    ensures !BreakPassed(toks, i, carry, limit)
  {
    hide IsBlank;
    hide StackAt;
    hide Fits;
  }

  /** A chunk that shows something and has passed no break is cut where it overflows. */
  lemma EdgeWhereItOverflows(toks: seq<string>, i: nat, j: nat, carry: Stack, limit: nat, out: Outcome)
    requires i < |toks| && |Openers(carry)| <= limit && Ends(toks, i, carry, limit, out)
    requires OverflowsAt(toks, i, j, carry, limit) && SomeContent(toks, i, j) && !BreakPassed(toks, i, carry, limit)
    ensures out.AtEdge? && out.tok == j && out.stack == StackAt(toks, i, j, carry)
  {
    hide OverflowsAt;
    hide BreakPassed;
    hide IsTag;
    hide IsBlank;
    hide IsContent;
    hide BreaksBefore;
    hide SomeContent;
    CutsAtBreak(toks, i, carry, limit, out);
    TailFits(toks, i, j, carry, limit, out);
    OverflowIs(toks, i, j, carry, limit, out);
  }

  lemma TailFits(toks: seq<string>, i: nat, j: nat, carry: Stack, limit: nat, out: Outcome)
    requires i < |toks| && |Openers(carry)| <= limit && Ends(toks, i, carry, limit, out)
    requires OverflowsAt(toks, i, j, carry, limit)
    ensures !out.Tail?
  {
    hide BreaksBefore;
    hide SomeContent;
    if out.Tail? { TailNoOverflow(toks, i, j, carry, limit); }
  }

  lemma OverflowIs(toks: seq<string>, i: nat, j: nat, carry: Stack, limit: nat, out: Outcome)
    requires i < |toks| && |Openers(carry)| <= limit && Ends(toks, i, carry, limit, out)
    requires OverflowsAt(toks, i, j, carry, limit) && (out.AtEdge? || out.Sliced? || out.Dropped?)
    ensures out.tok == j
  {
    hide SomeContent;
    OneOverflow(toks, i, j, out.tok, carry, limit);
  }

  /** A round that ends inside code ends at a line break exactly if it passed a break; and without one
      it passed no line break behind the tags it began with. */
  lemma CodeCuts(toks: seq<string>, i: nat, carry: Stack, limit: nat, out: Outcome)
    requires i < |toks| && |Openers(carry)| <= limit && Ends(toks, i, carry, limit, out)
    ensures (out.AtBreak? || out.AtEdge? || out.Sliced?) && InPre(out.stack) ==>
      (out.AtBreak? && Has(toks[out.tok], "\n") <==> BreakPassed(toks, i, carry, limit))
    ensures out.AtBreak? && InPre(out.stack) ==> Has(toks[out.tok], "\n")
    ensures out.AtEdge? || out.Sliced? ==>
      forall k :: i < k <= out.tok && IsBlank(toks[k]) && Has(toks[k], "\n")
                  ==> LenAt(toks, i, k, carry) == |Openers(carry)|
  {
    hide StackAt;
    hide IsTag;
    hide LenAt;
    hide Openers;
    hide Closers;
    hide IsBlank;
    hide SomeContent;
    hide InPre;
    hide MinFill;
    hide Has;
    hide BreakPassed;
    CutsAtBreak(toks, i, carry, limit, out);
    match out
    case AtBreak(_, st, k) =>
      var j: nat :| BreaksBefore(toks, i, j, k, carry, limit);
      var best, t :| LastBreaks(toks, i, j + 1, carry, limit, best)
        && Preferred(best, MinFill(limit, |Openers(carry)|), t) && best[t] == BreakOf(toks, i, k, carry);
      assert BreakAt(toks, i, k, carry, limit, t);
      NewlineTier(toks[k]);
    case AtEdge(_, _, j) => NoNewlineBefore(toks, i, j, carry, limit);
    case Sliced(_, _, j, _) => NoNewlineBefore(toks, i, j, carry, limit);
    case _ =>
  }

  lemma NewlineTier(tok: string)
    ensures Tier(tok) >= 2 <==> Has(tok, "\n")
  {
    if Has(tok, "\n\n") {
      var k :| 0 <= k <= |tok| && At(tok, "\n\n", k);
      assert tok[k..k + 2][0] == '\n';
      assert At(tok, "\n", k);
    }
  }

  lemma NoNewlineBefore(toks: seq<string>, i: nat, j: nat, carry: Stack, limit: nat)
    requires NoBreakBefore(toks, i, j, carry, limit)
    ensures forall k :: i < k <= j && IsBlank(toks[k]) && Has(toks[k], "\n")
                        ==> LenAt(toks, i, k, carry) == |Openers(carry)|
  {
    hide StackAt;
    hide IsTag;
    hide Closers;
    hide IsBlank;
    hide InPre;
    hide Has;
    hide Tier;
    forall k | i < k <= j && IsBlank(toks[k]) && Has(toks[k], "\n")
      ensures LenAt(toks, i, k, carry) == |Openers(carry)|
    {
      NewlineTier(toks[k]);
      assert Fits(toks, i, k, carry, limit);
      assert !BreakAt(toks, i, k, carry, limit, Tier(toks[k]));
    }
  }

  // ---- a round is determined ----------------------------------------------------------

  lemma {:induction false} LenMono(toks: seq<string>, i: nat, k: nat, m: nat, carry: Stack)
    requires i <= k <= m <= |toks|
    ensures LenAt(toks, i, k, carry) <= LenAt(toks, i, m, carry)
    decreases m
  {
    hide LenAt;
    hide StackAt;
    if k < m {
      LenMono(toks, i, k, m - 1, carry);
      AtNext(toks, i, m - 1, carry);
    }
  }

  /** Two breaks of the same length are the same. */
  lemma SameLengthSameBreak(toks: seq<string>, i: nat, k: nat, m: nat, carry: Stack)
    requires i <= k < |toks| && i <= m < |toks| && IsBlank(toks[k]) && IsBlank(toks[m])
    requires LenAt(toks, i, k, carry) == LenAt(toks, i, m, carry)
    ensures k == m
  {
    hide LenAt;
    hide StackAt;
    AtNext(toks, i, k, carry);
    AtNext(toks, i, m, carry);
    if k < m { LenMono(toks, i, k + 1, m, carry); }
    if m < k { LenMono(toks, i, m + 1, k, carry); }
  }

  lemma OneTable(toks: seq<string>, i: nat, end: nat, carry: Stack, limit: nat, best: map<int, Break>, best': map<int, Break>)
    requires i <= end <= |toks|
    requires LastBreaks(toks, i, end, carry, limit, best) && LastBreaks(toks, i, end, carry, limit, best')
    ensures best == best'
  {
    hide BreakAt;
    hide StackAt;
    hide LenAt;
    assert forall t :: t in best ==> t in best' && best[t].tok <= best'[t].tok;
    assert forall t :: t in best' ==> t in best && best'[t].tok <= best[t].tok;
    assert best.Keys == best'.Keys;
    assert forall t :: t in best ==> best[t] == best'[t];
  }

  /** The table a break was preferred in. */
  lemma BreakTable(toks: seq<string>, i: nat, j: nat, k: nat, carry: Stack, limit: nat)
    returns (best: map<int, Break>, t: int)
    requires |Openers(carry)| <= limit && BreaksBefore(toks, i, j, k, carry, limit)
    ensures OverflowsAt(toks, i, j, carry, limit) && i < k <= j < |toks|
    ensures LastBreaks(toks, i, j + 1, carry, limit, best) && Preferred(best, MinFill(limit, |Openers(carry)|), t)
    ensures t in best && best[t].tok == k
  {
    hide Fits;
    hide LastBreaks;
    hide MinFill;
    best, t :| LastBreaks(toks, i, j + 1, carry, limit, best) && Preferred(best, MinFill(limit, |Openers(carry)|), t)
               && best[t] == BreakOf(toks, i, k, carry);
  }

  lemma OneBreak(toks: seq<string>, i: nat, j: nat, k: nat, j': nat, k': nat, carry: Stack, limit: nat)
    requires |Openers(carry)| <= limit
    requires BreaksBefore(toks, i, j, k, carry, limit) && BreaksBefore(toks, i, j', k', carry, limit)
    ensures k == k'
  {
    hide BreaksBefore;
    hide MinFill;
    hide LastBreaks;
    hide OverflowsAt;
    hide Preferred;
    var best, t := BreakTable(toks, i, j, k, carry, limit);
    var best', t' := BreakTable(toks, i, j', k', carry, limit);
    OneOverflow(toks, i, j, j', carry, limit);
    OneTable(toks, i, j + 1, carry, limit, best, best');
    SameChoice(toks, i, j + 1, carry, limit, best, MinFill(limit, |Openers(carry)|), t, t');
  }

  lemma SameChoice(toks: seq<string>, i: nat, end: nat, carry: Stack, limit: nat, best: map<int, Break>, minFill: nat,
                   t: int, t': int)
    requires i <= end <= |toks| && LastBreaks(toks, i, end, carry, limit, best)
    requires Preferred(best, minFill, t) && Preferred(best, minFill, t')
    ensures t in best && t' in best && best[t].tok == best[t'].tok
  {
    hide LastBreaks;
    hide LenAt;
    hide IsBlank;
    TableBlanks(toks, i, end, carry, limit, best, t);
    TableBlanks(toks, i, end, carry, limit, best, t');
    PreferredLength(best, minFill, t, t');
    SameLengthSameBreak(toks, i, best[t].tok, best[t'].tok, carry);
  }

  lemma TableBlanks(toks: seq<string>, i: nat, end: nat, carry: Stack, limit: nat, best: map<int, Break>, t: int)
    requires i <= end <= |toks| && LastBreaks(toks, i, end, carry, limit, best) && t in best
    ensures i <= best[t].tok < |toks| && IsBlank(toks[best[t].tok]) && best[t].length == LenAt(toks, i, best[t].tok, carry)
  {
    hide StackAt;
    hide LenAt;
    hide Tier;
  }

  lemma PreferredLength(best: map<int, Break>, minFill: nat, t: int, t': int)
    requires Preferred(best, minFill, t) && Preferred(best, minFill, t')
    ensures best[t].length == best[t'].length
  {
  }

  /** Nothing about a round is left open: its exit, its chunk, its stack and its token are determined. */
  lemma OneOutcome(toks: seq<string>, i: nat, carry: Stack, limit: nat, out: Outcome, out': Outcome)
    requires i < |toks| && |Openers(carry)| <= limit
    requires Ends(toks, i, carry, limit, out) && Ends(toks, i, carry, limit, out')
    ensures out == out'
  {
    CutsAtBreak(toks, i, carry, limit, out);
    CutsAtBreak(toks, i, carry, limit, out');
    SameTail(toks, i, carry, limit, out, out');
    SameTail(toks, i, carry, limit, out', out);
    hide Fits;
    hide BreakPassed;
    hide IsTag;
    hide IsBlank;
    hide SomeContent;
    hide RoomAt;
    hide ChunkText;
    hide SlicedText;
    hide StackAt;
    hide BreaksBefore;
    match out
    case Tail(_) =>
    case AtBreak(_, _, k) => SameBreak(toks, i, carry, limit, out, out');
    case _ => OverflowIs(toks, i, out.tok, carry, limit, out');
  }

  lemma SameTail(toks: seq<string>, i: nat, carry: Stack, limit: nat, out: Outcome, out': Outcome)
    requires i < |toks| && |Openers(carry)| <= limit
    requires Ends(toks, i, carry, limit, out) && Ends(toks, i, carry, limit, out')
    ensures out.Tail? ==> out'.Tail?
  {
    hide Fits;
    hide SomeContent;
    hide ChunkText;
    hide SlicedText;
    hide StackAt;
    hide RoomAt;
    if !out'.Tail? {
      var j := Overflow(toks, i, carry, limit, out');
      TailFits(toks, i, j, carry, limit, out);
    }
  }

  /** Where a round that is not the last overflows. */
  lemma Overflow(toks: seq<string>, i: nat, carry: Stack, limit: nat, out: Outcome) returns (j: nat)
    requires i < |toks| && |Openers(carry)| <= limit && Ends(toks, i, carry, limit, out) && !out.Tail?
    ensures OverflowsAt(toks, i, j, carry, limit)
  {
    hide Fits;
    hide SomeContent;
    hide ChunkText;
    hide SlicedText;
    hide StackAt;
    hide RoomAt;
    if out.AtBreak? {
      j :| BreaksBefore(toks, i, j, out.tok, carry, limit);
      BreaksOverflow(toks, i, j, out.tok, carry, limit);
    } else {
      j := out.tok;
    }
  }

  lemma SameBreak(toks: seq<string>, i: nat, carry: Stack, limit: nat, out: Outcome, out': Outcome)
    requires i < |toks| && |Openers(carry)| <= limit && out.AtBreak? && out'.AtBreak?
    requires Ends(toks, i, carry, limit, out) && Ends(toks, i, carry, limit, out')
    ensures out == out'
  {
    hide BreaksBefore;
    hide IsBlank;
    hide ChunkText;
    hide StackAt;
    var j: nat :| BreaksBefore(toks, i, j, out.tok, carry, limit);
    var j': nat :| BreaksBefore(toks, i, j', out'.tok, carry, limit);
    OneBreak(toks, i, j, out.tok, j', out'.tok, carry, limit);
  }
}
