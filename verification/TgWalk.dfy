/** Where the splitter ends one chunk: the walk over tokens, the break table, the five exits. */
module TgWalk {
  import opened Text
  import opened TgMarkup
  import opened TgLex
  import opened TgChunk

  /** A whitespace token the chunk could end at: its index, the tags open there, the number of
      parts before it and their length. */
  datatype Break = Break(tok: nat, stack: Stack, parts: nat, length: nat)

  datatype Outcome =
    | Tail(chunk: string)                                          // everything left fits
    | AtBreak(chunk: string, stack: Stack, tok: nat)               // the whitespace token is the cut
    | AtEdge(chunk: string, stack: Stack, tok: nat)                // cut before token `tok`
    | Sliced(chunk: string, stack: Stack, tok: nat, room: nat)     // cut inside token `tok`
    | Dropped(tok: nat)                                            // token `tok` cannot be sent

  /** 3: paragraph break, 2: line break, 1: word break. */
  function Tier(tok: string): (t: int)
    ensures t in {1, 2, 3}
  {
    if Has(tok, "\n\n") then 3 else if Has(tok, "\n") then 2 else 1
  }

  predicate BreakAt(toks: seq<string>, i: nat, k: nat, carry: Stack, limit: nat, tier: int)
    requires i <= k < |toks|
  {
    var st := StackAt(toks, i, k, carry);
    && IsBlank(toks[k]) && Tier(toks[k]) == tier
    && LenAt(toks, i, k, carry) > |Openers(carry)|
    && !(tier == 1 && InPre(st))
    && LenAt(toks, i, k, carry) + |Closers(st)| <= limit
  }

  function BreakOf(toks: seq<string>, i: nat, k: nat, carry: Stack): Break
    requires i <= k <= |toks|
  {
    Break(k, StackAt(toks, i, k, carry), k - i + 1, LenAt(toks, i, k, carry))
  }

  /** `best` holds exactly the last break of every tier among the tokens i..end. */
  ghost predicate LastBreaks(toks: seq<string>, i: nat, end: nat, carry: Stack, limit: nat, best: map<int, Break>)
    requires i <= end <= |toks|
  {
    && (forall t :: t in best ==> i <= best[t].tok < end && best[t] == BreakOf(toks, i, best[t].tok, carry)
                                  && BreakAt(toks, i, best[t].tok, carry, limit, t))
    && (forall k, t :: i <= k < end && BreakAt(toks, i, k, carry, limit, t) ==> t in best && k <= best[t].tok)
  }

  /** The tokens i..k, closed, make a chunk within the limit. */
  predicate Fits(toks: seq<string>, i: nat, k: nat, carry: Stack, limit: nat)
    requires i <= k <= |toks|
  {
    LenAt(toks, i, k, carry) + |Closers(StackAt(toks, i, k, carry))| <= limit
  }

  /** Token j is the first one the chunk has no room for. */
  ghost predicate OverflowsAt(toks: seq<string>, i: nat, j: nat, carry: Stack, limit: nat) {
    && i <= j < |toks| && !Fits(toks, i, j + 1, carry, limit)
    && forall k :: i < k <= j ==> Fits(toks, i, k, carry, limit)
  }

  ghost predicate SomeContent(toks: seq<string>, i: nat, j: nat)
    requires i <= j <= |toks|
  {
    exists k :: i <= k < j && IsContent(toks[k])
  }

  lemma LastBreaksNext(toks: seq<string>, i: nat, k: nat, carry: Stack, limit: nat, best: map<int, Break>)
    requires i <= k < |toks|
    requires LastBreaks(toks, i, k, carry, limit, best)
    ensures var t := Tier(toks[k]);
            LastBreaks(toks, i, k + 1, carry, limit,
              if BreakAt(toks, i, k, carry, limit, t) then best[t := BreakOf(toks, i, k, carry)] else best)
  {
    hide Tier;
    hide IsBlank;
    hide StackAt;
    hide LenAt;
    hide InPre;
  }

  lemma BreakTest(toks: seq<string>, i: nat, k: nat, carry: Stack, limit: nat)
    requires i <= k < |toks|
    ensures BreakAt(toks, i, k, carry, limit, Tier(toks[k])) <==>
            (IsBlank(toks[k]) && LenAt(toks, i, k, carry) > |Openers(carry)|
             && !(Tier(toks[k]) == 1 && InPre(StackAt(toks, i, k, carry)))
             && LenAt(toks, i, k, carry) + |Closers(StackAt(toks, i, k, carry))| <= limit)
  {
  }

  // ---- the walk -------------------------------------------------------------

  /** Take tokens from i on until one does not fit, noting the breaks passed on the way. */
  method Fill(toks: seq<string>, i: nat, carry: Stack, limit: nat)
    returns (j: nat, overflowed: bool, hasContent: bool, parts: seq<string>, stack: Stack, best: map<int, Break>)
    requires i < |toks|
    ensures i <= j <= |toks| && (overflowed <==> j < |toks|)
    ensures parts == [Openers(carry)] + toks[i..j]
    ensures stack == StackAt(toks, i, j, carry)
    ensures hasContent <==> SomeContent(toks, i, j)
    ensures overflowed ==> OverflowsAt(toks, i, j, carry, limit) && LastBreaks(toks, i, j + 1, carry, limit, best)

    ensures forall k :: i < k <= j ==> Fits(toks, i, k, carry, limit)
  {
    hide ReadToks;
    hide Flatten;
    hide Openers;
    hide Closers;
    hide Tier;
    hide IsTag;
    hide AllSpace;
    hide StackAt;
    hide LenAt;
    hide Applied;
    hide BreakAt;
    parts := [Openers(carry)];
    var curLen := |parts[0]|;
    stack := carry;
    best := map[];
    j, overflowed, hasContent := i, false, false;
    AtStart(toks, i, carry);
    assert toks[i..i] == [];
    assert LastBreaks(toks, i, i, carry, limit, best);
    hide LastBreaks;
    while j < |toks|
      invariant i <= j <= |toks| && !overflowed
      invariant parts == [Openers(carry)] + toks[i..j]
      invariant curLen == LenAt(toks, i, j, carry) && stack == StackAt(toks, i, j, carry)
      invariant hasContent <==> SomeContent(toks, i, j)
      invariant LastBreaks(toks, i, j, carry, limit, best)
      invariant forall k :: i < k <= j ==> Fits(toks, i, k, carry, limit)
    {
      var tok := toks[j];
      LastBreaksNext(toks, i, j, carry, limit, best);
      BreakTest(toks, i, j, carry, limit);
      if IsBlank(tok) && curLen > |parts[0]| {
        var tier := Tier(tok);
        if !(tier == 1 && InPre(stack)) && curLen + |Closers(stack)| <= limit {
          best := best[tier := Break(j, stack, |parts|, curLen)];
        }
      }
      AtNext(toks, i, j, carry);
      var nstack := ApplyTag(stack, tok);
      if curLen + |tok| + |Closers(nstack)| > limit {
        overflowed := true;
        break;
      }
      assert parts + [tok] == [Openers(carry)] + toks[i..j + 1];
      parts := parts + [tok];
      curLen := curLen + |tok|;
      hasContent := hasContent || !(IsBlank(tok) || IsTag(tok));
      stack := nstack;
      j := j + 1;
    }
  }

  // ---- the choice among the breaks --------------------------------------------

  /** How full a chunk must be for a break to be taken for its tier: 30% of the room. */
  function MinFill(limit: nat, used: nat): nat
    requires used <= limit
  {
    used + (if (limit - used) * 3 / 10 > 1 then (limit - used) * 3 / 10 else 1)
  }

  /** The highest tier that is full enough; if none is, the longest chunk. */
  predicate Preferred(best: map<int, Break>, minFill: nat, t: int) {
    && t in best
    && if exists u :: u in best && best[u].length >= minFill
       then best[t].length >= minFill && forall u :: u in best && best[u].length >= minFill ==> u <= t
       else forall u :: u in best ==> best[u].length <= best[t].length
  }

  method Pick(best: map<int, Break>, minFill: nat) returns (pick: Option<Break>)
    requires best.Keys <= {1, 2, 3}
    ensures pick.None? <==> best == map[]
    ensures pick.Some? ==> exists t :: Preferred(best, minFill, t) && best[t] == pick.value
  {
    pick := None;
    var t := 3;
    while t > 0
      invariant 0 <= t <= 3 && pick == None
      invariant forall u :: u in best && u > t ==> best[u].length < minFill
    {
      if t in best && best[t].length >= minFill {
        assert Preferred(best, minFill, t);
        return Some(best[t]);
      }
      t := t - 1;
    }
    assert forall u :: u in best ==> best[u].length < minFill;
    if best != map[] {
      // nothing roomy: the longest one
      assert exists u :: u in best by { assert best.Keys != {}; }
      ghost var longest := 0;
      var left := best.Keys;
      while left != {}
        invariant left <= best.Keys
        invariant pick.None? ==> left == best.Keys
        invariant pick.Some? ==> longest in best && best[longest] == pick.value
        invariant pick.Some? ==> forall u :: u in best && u !in left ==> best[u].length <= pick.value.length
        decreases left
      {
        var u :| u in left;
        if pick.None? || best[u].length > pick.value.length {
          pick := Some(best[u]);
          longest := u;
        }
        left := left - {u};
      }
      assert Preferred(best, minFill, longest);
    }
  }
}
