/** The tokenizer of the Telegram splitter, and reading a text token by token. */
module TgLex {
  import opened Text
  import opened TgMarkup

  function WordEnd(s: string, k: nat): (r: nat)
    requires k <= |s|
    ensures k <= r <= |s|
    ensures forall m :: k <= m < r ==> IsWordChar(s[m])
    decreases |s| - k
  {
    if k < |s| && IsWordChar(s[k]) then WordEnd(s, k + 1) else k
  }

  predicate IsWordChar(c: char) {
    !IsSpace(c) && !IsAngle(c) && c != '&'
  }

  /** Length of the token at the start of s: the first alternative of the pattern that matches. */
  function TokenLen(s: string): (n: nat)
    requires s != ""
    ensures 1 <= n <= |s|
  {
    if BracketLen(s) > 0 then BracketLen(s)
    else if EntityLen(s) > 0 then EntityLen(s)
    else if IsSpace(s[0]) then SkipSpace(s, 0)
    else if IsWordChar(s[0]) then WordEnd(s, 0)
    else 1
  }

  /** Does a `<...>` with no angle bracket inside begin here, n characters long? */
  predicate BracketHere(s: string, n: nat) {
    2 <= n <= |s| && s[0] == '<' && s[n - 1] == '>' && forall k :: 1 <= k < n - 1 ==> s[k] != '<' && s[k] != '>'
  }

  /** Does an `&name;` begin here, n characters long, its name of 1 to 12 letters, digits or `#`? */
  predicate EntityHere(s: string, n: nat) {
    && 3 <= n <= 14 && n <= |s| && s[0] == '&' && s[n - 1] == ';'
    && forall k :: 1 <= k < n - 1 ==> s[k] == '#' || 'a' <= s[k] <= 'z' || 'A' <= s[k] <= 'Z' || '0' <= s[k] <= '9'
  }

  /** The first token is the tag or the entity that begins here; failing that all the whitespace, or all of the
      word, that does; failing that one character. */
  lemma TokenIs(s: string, n: nat)
    requires s != ""
    ensures BracketHere(s, n) ==> TokenLen(s) == n
    ensures EntityHere(s, n) ==> TokenLen(s) == n
    ensures (forall m :: !BracketHere(s, m) && !EntityHere(s, m)) ==>
      var len := TokenLen(s);
      if IsSpace(s[0]) then (forall k :: 0 <= k < len ==> IsSpace(s[k])) && (len < |s| ==> !IsSpace(s[len]))
      else if s[0] in "<>&" then len == 1
      else
        && (forall k :: 0 <= k < len ==> !IsSpace(s[k]) && s[k] !in "<>&")
        && (len < |s| ==> IsSpace(s[len]) || s[len] in "<>&")
  {
    if BracketHere(s, n) { FirstAngleAt(s, 1, n - 1); }
    if EntityHere(s, n) { EntityEndAt(s, 1, n - 1); }
    assert BracketLen(s) > 0 ==> BracketHere(s, BracketLen(s));
    assert EntityLen(s) > 0 ==> EntityHere(s, EntityLen(s));
    if IsWordChar(s[0]) { WordEnds(s, 0); }
  }

  lemma {:induction false} WordEnds(s: string, k: nat)
    requires k <= |s|
    ensures WordEnd(s, k) < |s| ==> !IsWordChar(s[WordEnd(s, k)])
    decreases |s| - k
  {
    hide IsWordChar;
    if k < |s| && IsWordChar(s[k]) { WordEnds(s, k + 1); }
  }

  function Lex(s: string): (toks: seq<string>)
    decreases |s|
  {
    if s == "" then [] else [s[..TokenLen(s)]] + Lex(s[TokenLen(s)..])
  }

  lemma {:induction false} LexLossless(s: string)
    ensures Flatten(Lex(s)) == s
    decreases |s|
  {
    hide TokenLen;
    if s != "" {
      var head, tail := s[..TokenLen(s)], s[TokenLen(s)..];
      LexLossless(tail);
      assert Lex(s) == [head] + Lex(tail);
      assert Lex(s)[0] == head && Lex(s)[1..] == Lex(tail);
      assert s == head + tail;
    }
  }

  // ---- kinds of token ------------------------------------------------------

  predicate IsBlank(tok: string) {
    tok != "" && AllSpace(tok)
  }

  /** Neither whitespace nor a tag: something the user sees. */
  predicate IsContent(tok: string) {
    !IsBlank(tok) && !IsTag(tok)
  }

  /** A `<` that nothing in the token closes. */
  predicate Dangling(tok: string) {
    tok != "" && tok[0] == '<' && !IsTag(tok) && forall m :: 1 <= m < |tok| ==> !IsAngle(tok[m])
  }

  /** A token, or what is left of one after a cut inside it. */
  predicate TokOk(tok: string) {
    && tok != ""
    && (Bracketed(tok) || Dangling(tok) || '<' !in tok)
    && (AmpEnded(tok) ==> tok == "&")
    && (IsBlank(tok) || !IsSpace(tok[|tok| - 1]))
  }

  /** Tokens that still read as themselves when they stand side by side. */
  predicate Clean(toks: seq<string>) {
    toks == [] || (
      && TokOk(toks[0])
      && (Dangling(toks[0]) ==> Shut(Flatten(toks[1..])))
      && (toks[0] == "&" ==> EntityLen("&" + Flatten(toks[1..])) == 0)
      && Clean(toks[1..]))
  }

  lemma TokenOk(s: string)
    requires s != ""
    ensures TokOk(s[..TokenLen(s)])
    ensures Dangling(s[..TokenLen(s)]) ==> Shut(s[TokenLen(s)..])
    ensures s[..TokenLen(s)] == "&" ==> EntityLen("&" + s[TokenLen(s)..]) == 0
  {
    hide ParseTag;
    hide EntityLen;
    hide AmpEnded;
    var n := TokenLen(s);
    var tok := s[..n];
    if BracketLen(s) > 0 {
      assert forall m :: 1 <= m < n - 1 ==> !IsAngle(tok[m]);
      assert Bracketed(tok);
      EndedByNoName(tok);
    } else if EntityLen(s) > 0 {
      EntityLong(s);
      assert tok[n - 1] == ';';
      EndedByNoName(tok);
    } else if IsSpace(s[0]) {
      assert AllSpace(tok);
      assert forall m :: 0 <= m < n ==> tok[m] != '<' && tok[m] != '&';
      NoAmpEnd(tok);
    } else if IsWordChar(s[0]) {
      assert forall m :: 0 <= m < n ==> tok[m] != '<' && tok[m] != '&';
      NoAmpEnd(tok);
    } else if s[0] == '<' {
      LoneAngle(s);
      NoAmpEnd(tok);
    } else {
      assert tok == [s[0]] && s == tok + s[1..];
      LoneSign(s[0]);
    }
  }

  lemma EntityLong(s: string)
    ensures EntityLen(s) > 0 ==> EntityLen(s) >= 3 && s[..EntityLen(s)] != "&"
  {
  }

  lemma LoneSign(c: char)
    requires c == '&' || c == '>'
    ensures AmpEnded([c]) ==> [c] == "&"
    ensures c == '>' ==> [c] != "&"
    ensures !IsSpace(c)
  {
  }

  lemma EndedByNoName(tok: string)
    requires tok != "" && (tok[|tok| - 1] == '>' || tok[|tok| - 1] == ';')
    ensures !AmpEnded(tok)
  {
  }

  lemma NoAmpEnd(tok: string)
    requires '&' !in tok
    ensures !AmpEnded(tok)
  {
  }

  lemma LoneAngle(s: string)
    requires s != "" && s[0] == '<' && BracketLen(s) == 0
    ensures Dangling(s[..1]) && Shut(s[1..])
  {
    assert ParseTag("<") == NotATag;
    assert s[..1] == "<";
    var k := FirstAngle(s, 1);
    FirstAngleAt(s[1..], 0, k - 1);
  }

  lemma {:induction false} LexClean(s: string)
    ensures Clean(Lex(s))
    decreases |s|
  {
    if s != "" {
      var n := TokenLen(s);
      hide TokOk;
      hide Dangling;
      hide TokenLen;
      TokenOk(s);
      LexClean(s[n..]);
      LexLossless(s[n..]);
      assert Lex(s)[1..] == Lex(s[n..]);
    }
  }

  // ---- reading token by token ---------------------------------------------

  function TokStep(tok: string, st: Stack): Reading {
    if IsTag(tok) then Reading([], Applied(st, tok), ClosesTop(st, tok))
    else Reading(Glyphs(tok, st), st, true)
  }

  function ReadToks(toks: seq<string>, st: Stack): Reading {
    if toks == [] then Reading([], st, true)
    else Then(TokStep(toks[0], st), ReadToks(toks[1..], TokStep(toks[0], st).open))
  }

  /** Between a token and what it was read off from no entity is hidden. */
  lemma TokenEnds(tok: string, rest: string)
    requires (AmpEnded(tok) ==> tok == "&") && (tok == "&" ==> EntityLen("&" + rest) == 0)
    ensures NoEntityAcross(tok, rest)
  {
    hide EntityLen;
    if tok == "&" {
      assert tok[0..] == tok;
    } else {
      NotAcross(tok, rest);
    }
  }

  lemma ReadToken(tok: string, st: Stack)
    requires TokOk(tok)
    ensures Read(tok, st) == TokStep(tok, st)
    ensures OpenEnded(tok) ==> Dangling(tok)
  {
    hide ParseTag;
    hide Applied;
    hide ClosesTop;
    if '<' !in tok {
      ReadPlain(tok, st);
      assert ParseTag(tok) == NotATag by { PlainIsNoTag(tok); }
    } else if Bracketed(tok) && IsTag(tok) {
      BracketRead(tok, st);
      NotOpenEnded(tok);
    } else {
      ReadInert(tok, st);
      if Bracketed(tok) { NotOpenEnded(tok); }
    }
  }

  lemma PlainIsNoTag(tok: string)
    requires tok == "" || tok[0] != '<'
    ensures ParseTag(tok) == NotATag
  {
  }

  /** A `<...>` or `<...` that is no tag is shown character by character. */
  lemma ReadInert(tok: string, st: Stack)
    requires tok != "" && tok[0] == '<' && !IsTag(tok)
    requires Bracketed(tok) || Dangling(tok)
    ensures Read(tok, st) == Reading(Glyphs(tok, st), st, true)
  {
    hide ParseTag;
    hide Applied;
    hide ClosesTop;
    if Bracketed(tok) {
      FirstAngleAt(tok, 1, |tok| - 1);
      assert tok[..|tok|] == tok;
    } else {
      FirstAngleAt(tok, 1, |tok|);
    }
    assert StepLen(tok) == 1;
    assert forall m :: 0 <= m < |tok| - 1 ==> tok[1..][m] == tok[m + 1];
    ReadPlain(tok[1..], st);
  }

  lemma {:induction false} ReadTokens(toks: seq<string>, st: Stack)
    requires Clean(toks)
    ensures Read(Flatten(toks), st) == ReadToks(toks, st)
    decreases |toks|
  {
    hide TokOk;
    hide TokStep;
    hide Read;
    hide Dangling;
    hide OpenEnded;
    if toks == [] {
      ReadEmpty(st);
    } else {
      ReadToken(toks[0], st);
      CleanEnds(toks);
      ReadConcat(toks[0], Flatten(toks[1..]), st);
      ReadTokens(toks[1..], TokStep(toks[0], st).open);
    }
  }

  lemma CleanEnds(toks: seq<string>)
    requires Clean(toks) && toks != []
    ensures NoEntityAcross(toks[0], Flatten(toks[1..]))
  {
    hide AmpEnded;
    TokenEnds(toks[0], Flatten(toks[1..]));
  }

  lemma {:induction false} ReadToksConcat(a: seq<string>, b: seq<string>, st: Stack)
    ensures ReadToks(a + b, st) == Then(ReadToks(a, st), ReadToks(b, ReadToks(a, st).open))
  {
    hide TokStep;
    if a == [] {
      assert a + b == b;
      assert [] + ReadToks(b, st).shown == ReadToks(b, st).shown;
    } else {
      var st' := TokStep(a[0], st).open;
      ReadToksConcat(a[1..], b, st');
      assert (a + b)[1..] == a[1..] + b;
      ThenAssoc(TokStep(a[0], st), ReadToks(a[1..], st'), ReadToks(b, ReadToks(a[1..], st').open));
    }
  }

  lemma ReadToksOne(tok: string, st: Stack)
    ensures ReadToks([tok], st) == TokStep(tok, st)
  {
    hide TokStep;
    var r := TokStep(tok, st);
    assert ReadToks([tok][1..], r.open) == Reading([], r.open, true);
    assert r.shown + [] == r.shown;
  }

  lemma {:induction false} ReadToksWf(toks: seq<string>, st: Stack)
    requires Clean(toks) && WfStack(st)
    ensures WfStack(ReadToks(toks, st).open)
    decreases |toks|
  {
    hide ParseTag;
    hide WfStack;
    if toks != [] {
      if IsTag(toks[0]) { TagIsBracketed(toks[0]); }
      AppliedWf(st, toks[0]);
      ReadToksWf(toks[1..], TokStep(toks[0], st).open);
    }
  }

  lemma TagIsBracketed(tok: string)
    requires TokOk(tok) && IsTag(tok)
    ensures Bracketed(tok)
  {
    if '<' !in tok { PlainIsNoTag(tok); }
  }

  // ---- pieces of a clean list are clean -----------------------------------

  lemma CleanSuffix(toks: seq<string>, k: nat)
    requires Clean(toks) && k <= |toks|
    ensures Clean(toks[k..])
    decreases k
  {
    if k == 0 {
      assert toks[0..] == toks;
    } else {
      CleanSuffix(toks[1..], k - 1);
      assert toks[1..][k - 1..] == toks[k..];
    }
  }

  lemma ShutPrefix(a: string, b: string)
    requires Shut(a + b)
    ensures Shut(a)
  {
    var k := FirstAngle(a, 0);
    if k < |a| { FirstAngleAt(a + b, 0, k); }
  }

  lemma ShutConcat(a: string, b: string)
    requires Shut(a) && Shut(b)
    ensures Shut(a + b)
  {
    var k := FirstAngle(a, 0);
    if k < |a| {
      FirstAngleAt(a + b, 0, k);
    } else {
      var m := FirstAngle(b, 0);
      forall q | 0 <= q < |a| + m ensures !IsAngle((a + b)[q]) {
        if q >= |a| { assert (a + b)[q] == b[q - |a|]; }
      }
      FirstAngleAt(a + b, 0, |a| + m);
    }
  }

  lemma AmpPrefix(a: string, b: string)
    requires EntityLen("&" + (a + b)) == 0
    ensures EntityLen("&" + a) == 0
  {
    assert "&" + (a + b) == ("&" + a) + b;
    EntityInPrefix("&" + a, b);
  }

  lemma {:induction false} CleanTake(toks: seq<string>, k: nat)
    requires Clean(toks) && k <= |toks|
    ensures Clean(toks[..k])
    decreases k
  {
    hide TokOk;
    hide Dangling;
    hide Shut;
    hide EntityLen;
    if k > 0 {
      CleanTake(toks[1..], k - 1);
      assert toks[..k][1..] == toks[1..][..k - 1];
      FlattenSplit(toks[1..], k - 1);
      var a, b := Flatten(toks[1..][..k - 1]), Flatten(toks[1..][k - 1..]);
      if Dangling(toks[0]) { ShutPrefix(a, b); }
      if toks[0] == "&" { AmpPrefix(a, b); }
    }
  }

  lemma {:induction false} FlattenNonEmpty(toks: seq<string>)
    requires Clean(toks)
    ensures |Flatten(toks)| >= |toks|
    decreases |toks|
  {
    hide TokOk;
    if toks != [] {
      FlattenNonEmpty(toks[1..]);
      TokNonEmpty(toks[0]);
    }
  }

  lemma TokNonEmpty(tok: string)
    requires TokOk(tok)
    ensures tok != ""
  {
  }
}
