/** Which whitespace a chunk ends at: a paragraph break before a line break before a word break, the last one
    of its kind, if the chunk is then full enough. */
module TgBreaks {
  import opened Text
  import opened TgMarkup
  import opened TgLex
  import opened TgChunk
  import opened TgWalk
  import opened TgCut
  import opened TgBudget
  import opened TgRound

  datatype Kind = ParagraphBreak | LineBreak | WordBreak

  predicate IsOf(tok: string, kind: Kind) {
    match kind
    case ParagraphBreak => Has(tok, "\n\n")
    case LineBreak => Has(tok, "\n") && !Has(tok, "\n\n")
    case WordBreak => !Has(tok, "\n")
  }

  /** Could a chunk that begins at token i end at whitespace token k? Something comes before it, inside code it
      holds a line break, and the chunk fits with its tags closed. */
  predicate Admissible(toks: seq<string>, i: nat, k: nat, carry: Stack, limit: nat)
    requires i <= k < |toks|
  {
    var used, st := |Flatten(toks[i..k])|, StackAt(toks, i, k, carry);
    && IsBlank(toks[k]) && used > 0 && (InPre(st) ==> Has(toks[k], "\n"))
    && |Openers(carry)| + used + |Closers(st)| <= limit
  }

  /** Are the tokens i..k at least 30% of what fits behind the reopened tags, rounded down, and not nothing? */
  predicate FullEnough(toks: seq<string>, i: nat, k: nat, carry: Stack, limit: nat)
    requires i <= k < |toks|
  {
    var used, room := |Flatten(toks[i..k])|, limit - |Openers(carry)|;
    used >= 1 && 10 * used + 10 > 3 * room
  }

  /** Up to token j, was whitespace of this kind passed that is full enough? */
  ghost predicate Due(toks: seq<string>, i: nat, j: nat, carry: Stack, limit: nat, kind: Kind)
    requires i <= j < |toks|
  {
    exists k :: i <= k <= j && Admissible(toks, i, k, carry, limit) && IsOf(toks[k], kind) && FullEnough(toks, i, k, carry, limit)
  }

  /** k is the last place of this kind, up to token j, where the chunk could end. */
  ghost predicate LastOf(toks: seq<string>, i: nat, j: nat, k: nat, carry: Stack, limit: nat, kind: Kind)
    requires i <= j < |toks|
  {
    && i <= k <= j && Admissible(toks, i, k, carry, limit) && IsOf(toks[k], kind)
    && forall m :: k < m <= j && Admissible(toks, i, m, carry, limit) ==> !IsOf(toks[m], kind)
  }

  /** The best kind that is full enough; if none is, the last place of all. */
  ghost predicate BestPlace(toks: seq<string>, i: nat, j: nat, k: nat, carry: Stack, limit: nat)
    requires i <= j < |toks|
  {
    if Due(toks, i, j, carry, limit, ParagraphBreak) then LastOf(toks, i, j, k, carry, limit, ParagraphBreak)
    else if Due(toks, i, j, carry, limit, LineBreak) then LastOf(toks, i, j, k, carry, limit, LineBreak)
    else if Due(toks, i, j, carry, limit, WordBreak) then LastOf(toks, i, j, k, carry, limit, WordBreak)
    else
      && i <= k <= j && Admissible(toks, i, k, carry, limit)
      && forall m :: k < m <= j ==> !Admissible(toks, i, m, carry, limit)
  }

  function TierOf(kind: Kind): int {
    match kind case ParagraphBreak => 3 case LineBreak => 2 case WordBreak => 1
  }

  lemma KindIsTier(tok: string, kind: Kind)
    ensures IsOf(tok, kind) <==> Tier(tok) == TierOf(kind)
  {
    NewlineTier(tok);
  }

  lemma AdmissibleIs(toks: seq<string>, i: nat, k: nat, carry: Stack, limit: nat)
    requires i <= k < |toks|
    ensures Admissible(toks, i, k, carry, limit) <==> BreakAt(toks, i, k, carry, limit, Tier(toks[k]))
  {
    hide StackAt;
    hide Openers;
    hide Closers;
    hide IsBlank;
    hide Tier;
    NewlineTier(toks[k]);
  }

  lemma FullIs(toks: seq<string>, i: nat, k: nat, carry: Stack, limit: nat)
    requires i <= k < |toks| && |Openers(carry)| <= limit
    ensures FullEnough(toks, i, k, carry, limit) <==> LenAt(toks, i, k, carry) >= MinFill(limit, |Openers(carry)|)
  {
    hide Openers;
    hide Flatten;
  }

  lemma FullLater(toks: seq<string>, i: nat, k: nat, m: nat, carry: Stack, limit: nat)
    requires i <= k <= m < |toks| && |Openers(carry)| <= limit && FullEnough(toks, i, k, carry, limit)
    ensures FullEnough(toks, i, m, carry, limit)
  {
    hide FullEnough;
    hide MinFill;
    hide LenAt;
    FullIs(toks, i, k, carry, limit);
    FullIs(toks, i, m, carry, limit);
    LenMono(toks, i, k, m, carry);
  }

  /** An entry of the table is the last place of its kind; what is not in it was not passed. */
  lemma EntryIsLast(toks: seq<string>, i: nat, j: nat, carry: Stack, limit: nat, best: map<int, Break>, kind: Kind)
    requires i <= j < |toks| && |Openers(carry)| <= limit && LastBreaks(toks, i, j + 1, carry, limit, best)
    ensures TierOf(kind) in best ==> i <= best[TierOf(kind)].tok <= j && LastOf(toks, i, j, best[TierOf(kind)].tok, carry, limit, kind)
    ensures TierOf(kind) !in best ==> forall m :: i <= m <= j && Admissible(toks, i, m, carry, limit) ==> !IsOf(toks[m], kind)
    ensures Due(toks, i, j, carry, limit, kind)
       <==> TierOf(kind) in best && best[TierOf(kind)].length >= MinFill(limit, |Openers(carry)|)
  {
    hide Admissible;
    hide BreakAt;
    hide Tier;
    hide FullEnough;
    hide MinFill;
    hide IsOf;
    hide LenAt;
    hide StackAt;
    var t := TierOf(kind);
    forall m | i <= m <= j ensures IsOf(toks[m], kind) <==> Tier(toks[m]) == t { KindIsTier(toks[m], kind); }
    forall m | i <= m <= j ensures Admissible(toks, i, m, carry, limit) <==> BreakAt(toks, i, m, carry, limit, Tier(toks[m])) {
      AdmissibleIs(toks, i, m, carry, limit);
    }
    if t in best {
      var k := best[t].tok;
      TierOfBreak(toks, i, k, carry, limit, t);
      FullIs(toks, i, k, carry, limit);
      forall m | i <= m <= j && Admissible(toks, i, m, carry, limit) && IsOf(toks[m], kind) && FullEnough(toks, i, m, carry, limit)
        ensures FullEnough(toks, i, k, carry, limit)
      {
        assert m <= k;
        FullLater(toks, i, m, k, carry, limit);
      }
    }
  }

  /** The place a round prefers is the best there is. */
  lemma PreferredIsBest(toks: seq<string>, i: nat, j: nat, carry: Stack, limit: nat, best: map<int, Break>, t: int)
    requires i <= j < |toks| && |Openers(carry)| <= limit && LastBreaks(toks, i, j + 1, carry, limit, best)
    requires Preferred(best, MinFill(limit, |Openers(carry)|), t)
    ensures t in best && BestPlace(toks, i, j, best[t].tok, carry, limit)
  {
    hide MinFill;
    hide Due;
    hide LastOf;
    hide Admissible;
    hide LastBreaks;
    EntryIsLast(toks, i, j, carry, limit, best, ParagraphBreak);
    EntryIsLast(toks, i, j, carry, limit, best, LineBreak);
    EntryIsLast(toks, i, j, carry, limit, best, WordBreak);
    KeysAreTiers(toks, i, j, carry, limit, best);
    var k := best[t].tok;
    if !(exists u :: u in best && best[u].length >= MinFill(limit, |Openers(carry)|)) {
      LongestIsLast(toks, i, j, carry, limit, best, t);
    }
  }

  lemma KeysAreTiers(toks: seq<string>, i: nat, j: nat, carry: Stack, limit: nat, best: map<int, Break>)
    requires i <= j < |toks| && LastBreaks(toks, i, j + 1, carry, limit, best)
    ensures forall t :: t in best ==> t == 1 || t == 2 || t == 3
  {
    hide Tier;
    hide StackAt;
    hide LenAt;
    forall t | t in best ensures t == 1 || t == 2 || t == 3 {
      assert BreakAt(toks, i, best[t].tok, carry, limit, t);
    }
  }

  lemma LongestIsLast(toks: seq<string>, i: nat, j: nat, carry: Stack, limit: nat, best: map<int, Break>, t: int)
    requires i <= j < |toks| && LastBreaks(toks, i, j + 1, carry, limit, best) && t in best
    requires forall u :: u in best ==> best[u].length <= best[t].length
    ensures i <= best[t].tok <= j && Admissible(toks, i, best[t].tok, carry, limit)
    ensures forall m :: best[t].tok < m <= j ==> !Admissible(toks, i, m, carry, limit)
  {
    hide Admissible;
    hide Tier;
    hide BreakAt;
    hide LenAt;
    hide StackAt;
    var k := best[t].tok;
    TierOfBreak(toks, i, k, carry, limit, t);
    AdmissibleIs(toks, i, k, carry, limit);
    forall m | k < m <= j ensures !Admissible(toks, i, m, carry, limit) {
      AdmissibleIs(toks, i, m, carry, limit);
      if Admissible(toks, i, m, carry, limit) {
        var u := Tier(toks[m]);
        assert u in best && m <= best[u].tok;
        LongerLater(toks, i, k, best[u].tok, carry, limit, t);
      }
    }
  }

  /** Behind a whitespace token more is used up than before it. */
  lemma LongerLater(toks: seq<string>, i: nat, k: nat, m: nat, carry: Stack, limit: nat, t: int)
    requires i <= k < m < |toks| && BreakAt(toks, i, k, carry, limit, t)
    ensures LenAt(toks, i, k, carry) < LenAt(toks, i, m, carry)
  {
    hide LenAt;
    hide StackAt;
    AtNext(toks, i, k, carry);
    LenMono(toks, i, k + 1, m, carry);
  }

  /** A round that ends at whitespace ends at the best place it passed. */
  lemma BreakChoice(toks: seq<string>, i: nat, carry: Stack, limit: nat, out: Outcome) returns (j: nat)
    requires i < |toks| && |Openers(carry)| <= limit && Ends(toks, i, carry, limit, out) && out.AtBreak?
    ensures OverflowsAt(toks, i, j, carry, limit) && BestPlace(toks, i, j, out.tok, carry, limit)
  {
    hide BestPlace;
    hide MinFill;
    hide LastBreaks;
    hide OverflowsAt;
    hide Preferred;
    hide ChunkText;
    hide StackAt;
    hide IsBlank;
    hide BreaksBefore;
    j :| BreaksBefore(toks, i, j, out.tok, carry, limit);
    var best, t := BreakTable(toks, i, j, out.tok, carry, limit);
    PreferredIsBest(toks, i, j, carry, limit, best, t);
  }
}
