/** Where exactly the nonce stands in the request the model is sent. */
module Markers {
  import opened Text
  import opened Replacing
  import opened Steering

  // ---- the placeholder ------------------------------------------------------------

  /** `c` is `a`, `pat` and `b`, and replacing `pat` replaces the one between them: what is before and
      behind it is replaced on its own. */
  predicate ReplacedAt(c: string, pat: string, rep: string, a: string, b: string)
    requires pat != ""
  {
    c == a + pat + b && Replace(c, pat, rep) == Replace(a, pat, rep) + rep + Replace(b, pat, rep)
  }

  /** Do stretches of n characters from k and from q on share a character? */
  predicate Overlap(k: nat, q: nat, n: nat) {
    k < q + n && q < k + n
  }

  lemma AtTake(s: string, n: nat, sub: string, q: nat)
    requires n <= |s|
    ensures At(s[..n], sub, q) <==> q + |sub| <= n && At(s, sub, q)
  {
    if q + |sub| <= n { assert s[..n][q..q + |sub|] == s[q..q + |sub|]; }
  }

  lemma AtDrop(s: string, n: nat, sub: string, q: nat)
    requires n <= |s|
    ensures At(s[n..], sub, q) <==> At(s, sub, n + q)
  {
    if n + q + |sub| <= |s| { assert s[n..][q..q + |sub|] == s[n + q..n + q + |sub|]; }
  }

  /** `sub` stands at p for the first time. */
  predicate FirstAt(s: string, sub: string, p: nat) {
    At(s, sub, p) && forall q: nat :: q < p ==> !At(s, sub, q)
  }

  lemma {:induction false} FindFirst(s: string, sub: string) returns (p: nat)
    requires Has(s, sub)
    ensures p <= |s| && FirstAt(s, sub, p)
    decreases |s|
  {
    var k: nat :| k <= |s| && At(s, sub, k);
    if At(s, sub, 0) {
      p := 0;
    } else {
      AtDrop(s, 1, sub, k - 1);
      assert At(s[1..], sub, k - 1);
      p := FindFirst(s[1..], sub);
      p := p + 1;
      AtDrop(s, 1, sub, p - 1);
      forall q: nat | q < p ensures !At(s, sub, q) {
        if q > 0 { AtDrop(s, 1, sub, q - 1); }
      }
    }
  }

  lemma FirstTail(s: string, sub: string, p: nat)
    requires FirstAt(s, sub, p) && 0 < p <= |s|
    ensures FirstAt(s[1..], sub, p - 1)
  {
    hide At;
    AtDrop(s, 1, sub, p - 1);
    forall q: nat | q < p - 1 ensures !At(s[1..], sub, q) { AtDrop(s, 1, sub, q); }
  }

  lemma ReplaceHere(s: string, pat: string, rep: string)
    requires pat != "" && At(s, pat, 0)
    ensures |pat| <= |s| && Replace(s, pat, rep) == rep + Replace(s[|pat|..], pat, rep)
  {
    assert s[0..|pat|] == s[..|pat|];
  }

  lemma ReplaceNext(s: string, pat: string, rep: string)
    requires pat != "" && |s| >= |pat| && !At(s, pat, 0)
    ensures Replace(s, pat, rep) == [s[0]] + Replace(s[1..], pat, rep)
  {
    assert s[0..|pat|] == s[..|pat|];
  }

  /** `replace` goes for the first occurrence, and then on behind it. */
  lemma {:induction false} ReplaceFirst(x: string, y: string, pat: string, rep: string)
    requires pat != "" && FirstAt(x + pat + y, pat, |x|)
    ensures Replace(x + pat + y, pat, rep) == x + rep + Replace(y, pat, rep)
    decreases |x|
  {
    hide At;
    hide Replace;
    var s := x + pat + y;
    if x == "" {
      ReplaceHere(s, pat, rep);
      assert s[|pat|..] == y && x + rep == rep;
    } else {
      assert s[1..] == x[1..] + pat + y && s[0] == x[0];
      FirstTail(s, pat, |x|);
      ReplaceNext(s, pat, rep);
      ReplaceFirst(x[1..], y, pat, rep);
      PutFirst(x, rep + Replace(y, pat, rep));
      assert x[1..] + rep + Replace(y, pat, rep) == x[1..] + (rep + Replace(y, pat, rep));
    }
  }

  lemma PutFirst(x: string, y: string)
    requires x != ""
    ensures [x[0]] + (x[1..] + y) == x + y
  {
  }

  /** What stands behind the first occurrence does not matter to what is first. */
  lemma FirstWhatever(x: string, pat: string, y: string, y': string)
    requires pat != "" && FirstAt(x + pat + y, pat, |x|)
    ensures FirstAt(x + pat + y', pat, |x|)
  {
    AtTake(x + pat + y', |x + pat|, pat, |x|);
    assert (x + pat + y)[..|x + pat|] == x + pat == (x + pat + y')[..|x + pat|];
    assert (x + pat)[|x|..|x| + |pat|] == pat;
    forall q: nat | q < |x| ensures !At(x + pat + y', pat, q) {
      AtTake(x + pat + y', |x + pat|, pat, q);
      AtTake(x + pat + y, |x + pat|, pat, q);
    }
  }

  lemma UntouchedBefore(x: string, y: string, pat: string, rep: string)
    requires pat != "" && FirstAt(x + pat + y, pat, |x|)
    ensures Replace(x, pat, rep) == x
  {
    var s := x + pat + y;
    assert s[..|x|] == x;
    forall q | 0 <= q <= |x| ensures !At(x, pat, q) { AtTake(s, |x|, pat, q); }
    ReplaceAbsent(x, pat, rep);
  }

  lemma ReplacedBehind(x: string, y: string, pat: string, rep: string, a: string, b: string)
    requires pat != "" && FirstAt(x + pat + y, pat, |x|) && ReplacedAt(y, pat, rep, a, b)
    ensures ReplacedAt(x + pat + y, pat, rep, x + pat + a, b)
    ensures |Replace(x + pat + a, pat, rep)| == |x| + |rep| + |Replace(a, pat, rep)|
  {
    ReplaceFirst(x, y, pat, rep);
    FirstWhatever(x, pat, y, a);
    ReplaceFirst(x, a, pat, rep);
    Regroup(x, pat, a, pat, b);
    Regroup(x, rep, Replace(a, pat, rep), rep, Replace(b, pat, rep));
  }

  lemma Regroup(a: string, b: string, c: string, d: string, e: string)
    ensures a + b + (c + d + e) == (a + b + c) + d + e
  {
  }

  /** A text without `rep` has it after `replace` only where it was put in, or across one of its ends. */
  lemma {:induction false} OnlyReplaced(c: string, pat: string, rep: string, k: nat) returns (a: string, b: string)
    requires pat != "" && rep != "" && !Has(c, rep) && At(Replace(c, pat, rep), rep, k)
    ensures ReplacedAt(c, pat, rep, a, b) && Overlap(k, |Replace(a, pat, rep)|, |rep|)
    decreases |c|
  {
    PatternThere(c, pat, rep, k);
    var x, y := SplitFirst(c, pat);
    hide At;
    hide Has;
    hide Replace;
    hide ReplacedAt;
    ReplaceFirst(x, y, pat, rep);
    var rest := Replace(y, pat, rep);
    assert x + (pat + y) == c;
    NotBefore(x, pat + y, rep, rest, k);
    if k < |x| + |rep| {
      FirstFilled(c, pat, rep, x, y);
      a, b := x, y;
    } else {
      AtShift(x + rep, rest, rep, k);
      SuffixFree(x + pat, y, rep);
      var a', b' := OnlyReplaced(y, pat, rep, k - |x| - |rep|);
      ReplacedBehind(x, y, pat, rep, a', b');
      a, b := x + pat + a', b';
    }
  }

  lemma SplitFirst(c: string, pat: string) returns (x: string, y: string)
    requires pat != "" && Has(c, pat)
    ensures c == x + pat + y && FirstAt(c, pat, |x|)
  {
    var p := FindFirst(c, pat);
    x, y := c[..p], c[p + |pat|..];
    assert c == c[..p] + c[p..p + |pat|] + c[p + |pat|..];
  }

  lemma SuffixFree(x: string, y: string, sub: string)
    requires !Has(x + y, sub)
    ensures !Has(y, sub)
  {
    HasSuffix(x + y, |x|, sub);
    assert (x + y)[|x|..] == y;
  }

  lemma PatternThere(c: string, pat: string, rep: string, k: nat)
    requires pat != "" && !Has(c, rep) && At(Replace(c, pat, rep), rep, k)
    ensures Has(c, pat)
  {
    if !Has(c, pat) { ReplaceAbsent(c, pat, rep); }
  }

  lemma NotBefore(x: string, y: string, rep: string, rest: string, k: nat)
    requires !Has(x + y, rep) && At(x + rep + rest, rep, k)
    ensures |x| < k + |rep|
  {
    if k + |rep| <= |x| {
      assert (x + rep + rest)[k..k + |rep|] == (x + y)[k..k + |rep|];
      AtBound(x + y, rep, k);
    }
  }

  // ---- the placeholder is filled in ---------------------------------------------------

  /** Where a placeholder was replaced, what replaces it stands. */
  lemma FilledIn(c: string, pat: string, rep: string, a: string, b: string)
    requires pat != "" && ReplacedAt(c, pat, rep, a, b)
    ensures At(Replace(c, pat, rep), rep, |Replace(a, pat, rep)|)
  {
    hide Replace;
    var x, y := Replace(a, pat, rep), Replace(b, pat, rep);
    assert (x + rep + y)[|x|..|x| + |rep|] == rep;
  }

  /** The first one is replaced, and what is before it stays. */
  lemma FirstFilled(c: string, pat: string, rep: string, a: string, b: string)
    requires pat != "" && c == a + pat + b && FirstAt(c, pat, |a|)
    ensures ReplacedAt(c, pat, rep, a, b) && Replace(a, pat, rep) == a && At(Replace(c, pat, rep), rep, |a|)
  {
    UntouchedBefore(a, b, pat, rep);
    ReplaceFirst(a, b, pat, rep);
    FilledIn(c, pat, rep, a, b);
  }

  /** No digit of an id stands next to a placeholder, and no other placeholder. */
  ghost predicate Separate(c: string) {
    forall p: nat :: At(c, NONCE_PLACEHOLDER, p) ==>
      && (p > 0 ==> !IsHex(c[p - 1]))
      && (p + |NONCE_PLACEHOLDER| < |c| ==> !IsHex(c[p + |NONCE_PLACEHOLDER|]))
      && !At(c, NONCE_PLACEHOLDER, p + |NONCE_PLACEHOLDER|)
  }

  /** The last character before a placeholder, and the first behind it, are what they were. */
  lemma {:induction false} LastStays(a: string, pat: string, rep: string)
    requires pat != "" && a != "" && (|a| >= |pat| ==> a[|a| - |pat|..] != pat)
    ensures Replace(a, pat, rep) != "" && Replace(a, pat, rep)[|Replace(a, pat, rep)| - 1] == a[|a| - 1]
    decreases |a|
  {
    if Has(a, pat) {
      var x, y := SplitFirst(a, pat);
      assert (x + pat)[|x + pat| - |pat|..] == pat;
      assert y == "" ==> a == x + pat;
      assert |y| >= |pat| ==> y[|y| - |pat|..] == a[|a| - |pat|..];
      ReplaceFirst(x, y, pat, rep);
      LastStays(y, pat, rep);
    } else {
      ReplaceAbsent(a, pat, rep);
    }
  }

  lemma FirstStays(b: string, pat: string, rep: string)
    requires pat != "" && b != "" && !At(b, pat, 0)
    ensures Replace(b, pat, rep) != "" && Replace(b, pat, rep)[0] == b[0]
  {
    if |b| >= |pat| { ReplaceNext(b, pat, rep); }
  }

  /** Next to a placeholder that was filled in no digit of an id stands. */
  lemma FilledApart(c: string, nonce: string, a: string, b: string)
    requires Separate(c) && ReplacedAt(c, NONCE_PLACEHOLDER, nonce, a, b)
    ensures var x, y := Replace(a, NONCE_PLACEHOLDER, nonce), Replace(b, NONCE_PLACEHOLDER, nonce);
            (x != "" ==> !IsHex(x[|x| - 1])) && (y != "" ==> !IsHex(y[0]))
  {
    var n := |NONCE_PLACEHOLDER|;
    assert At(c, NONCE_PLACEHOLDER, |a|) by { assert c[|a|..|a| + n] == NONCE_PLACEHOLDER; }
    var x, y := Replace(a, NONCE_PLACEHOLDER, nonce), Replace(b, NONCE_PLACEHOLDER, nonce);
    if a == "" {
      assert x == "";
    } else {
      if |a| >= n && a[|a| - n..] == NONCE_PLACEHOLDER {
        assert c[|a| - n..|a|] == a[|a| - n..];
        assert At(c, NONCE_PLACEHOLDER, |a| - n);
      }
      LastStays(a, NONCE_PLACEHOLDER, nonce);
      assert c[|a| - 1] == a[|a| - 1];
    }
    if b == "" {
      assert y == "";
    } else {
      assert (a + NONCE_PLACEHOLDER + b)[|a| + n..] == b;
      AtDrop(c, |a| + n, NONCE_PLACEHOLDER, 0);
      FirstStays(b, NONCE_PLACEHOLDER, nonce);
      assert c[|a| + n] == b[0];
    }
  }

  /** A token between characters that are in none stands there and does not overlap its own place otherwise. */
  lemma TokenApart(x: string, h: string, y: string, k: nat)
    requires Token(h) && (x != "" ==> !IsHex(x[|x| - 1])) && (y != "" ==> !IsHex(y[0]))
    requires At(x + h + y, h, k) && Overlap(k, |x|, |h|)
    ensures k == |x|
  {
    var s := x + h + y;
    assert x != "" ==> s[|x| - 1] == x[|x| - 1];
    assert y != "" ==> s[|x| + 16] == y[0];
    if k < |x| {
      AtHex(s, h, k, |x| - 1);
    } else if k > |x| {
      AtHex(s, h, k, |x| + 16);
    }
  }

  /** In a prompt whose placeholders are separate the nonce stands exactly where one was filled in. */
  lemma NonceInPrompt(c: string, nonce: string, k: nat)
    requires Token(nonce) && !Has(c, nonce) && Separate(c)
    ensures At(Replace(c, NONCE_PLACEHOLDER, nonce), nonce, k)
       <==> exists a, b :: ReplacedAt(c, NONCE_PLACEHOLDER, nonce, a, b) && k == |Replace(a, NONCE_PLACEHOLDER, nonce)|
  {
    hide Replace;
    hide Separate;
    TokenLength(nonce);
    if At(Replace(c, NONCE_PLACEHOLDER, nonce), nonce, k) {
      var a, b := OnlyReplaced(c, NONCE_PLACEHOLDER, nonce, k);
      FilledApart(c, nonce, a, b);
      TokenApart(Replace(a, NONCE_PLACEHOLDER, nonce), nonce, Replace(b, NONCE_PLACEHOLDER, nonce), k);
    }
    forall a, b | ReplacedAt(c, NONCE_PLACEHOLDER, nonce, a, b)
      ensures At(Replace(c, NONCE_PLACEHOLDER, nonce), nonce, |Replace(a, NONCE_PLACEHOLDER, nonce)|)
    {
      FilledIn(c, NONCE_PLACEHOLDER, nonce, a, b);
    }
  }

  // ---- the ids of a block ------------------------------------------------------------

  /** No id stands across a character that is in none. */
  lemma AcrossNothing(a: string, c: char, b: string, h: string, k: nat)
    requires Token(h) && !IsHex(c) && At(a + [c] + b, h, k)
    ensures At(a, h, k) || (k > |a| && At(b, h, k - |a| - 1))
  {
    var s := a + [c] + b;
    if k > |a| {
      AtShift(a + [c], b, h, k);
    } else {
      assert s[|a|] == c;
      if k + 16 > |a| { AtHex(s, h, k, |a|); }
      assert s[k..k + 16] == a[k..k + 16];
    }
  }

  /** Behind fewer characters than an id has. */
  lemma BehindFew(a: string, c: char, b: string, h: string, k: nat)
    requires Token(h) && !IsHex(c) && |a| < 16 && At(a + [c] + b, h, k)
    ensures k > |a| && At(b, h, k - |a| - 1)
  {
    AcrossNothing(a, c, b, h, k);
  }

  /** An id, or nothing, before a character that is in none. */
  lemma IdOrBehind(s: string, c: char, b: string, h: string, k: nat)
    requires Token(h) && Token(s) && !IsHex(c) && At(s + [c] + b, h, k)
    ensures (h == s && k == 0) || (k > 16 && At(b, h, k - 17))
  {
    AcrossNothing(s, c, b, h, k);
    if At(s, h, k) { assert s[0..16] == s; }
  }

  /** An id in a mark, with whatever comes before and after it. */
  lemma IdInMark(head: string, s: string, rest: string, h: string, k: nat)
    requires Token(h) && Token(s) && (head == "<<<" || head == "<<<END_")
    requires At(head + "USER_STEER id=" + s + ">>>" + rest, h, k)
    ensures (h == s && k == |head| + 14) || (k >= |head| + 33 && At(rest, h, k - |head| - 33))
  {
    var tail := s + ">" + (">>" + rest);
    assert head + "USER_STEER id=" + s + ">>>" + rest == head + "U" + ("SER_STEER id" + "=" + tail);
    BehindFew(head, 'U', "SER_STEER id" + "=" + tail, h, k);
    BehindFew("SER_STEER id", '=', tail, h, k - |head| - 1);
    var m := k - |head| - 14;
    IdOrBehind(s, '>', ">>" + rest, h, m);
    if !(h == s && m == 0) {
      assert ">>" + rest == ">" + ">" + rest;
      BehindFew(">", '>', rest, h, m - 17);
    }
  }

  function OpenId(result: string, s: string, body: string): int {
    |WithBlock(result, Block(s, body))| - |Block(s, body)| + 17
  }

  function CloseId(result: string, s: string, body: string): int {
    |WithBlock(result, Block(s, body))| - 19
  }

  /** A block: its opening mark, and what is behind it. */
  lemma BlockParts(s: string, body: string)
    ensures Block(s, body) == "<<<" + "USER_STEER id=" + s + ">>>" + BehindOpening(s, body)
    ensures CloseMark(s) == "<<<END_" + "USER_STEER id=" + s + ">>>" + ""
  {
  }

  function BehindOpening(s: string, body: string): string {
    "" + "\n" + (body + "\n" + CloseMark(s))
  }

  lemma IdInBlock(s: string, body: string, h: string, k: nat)
    requires Token(h) && Token(s) && FreeText(body, h) && At(Block(s, body), h, k)
    ensures h == s && (k == 17 || k == |Block(s, body)| - 19)
  {
    hide IsHex;
    hide At;
    hide Block;
    hide CloseMark;
    hide BehindOpening;
    BlockParts(s, body);
    TokenLength(s);
    hide Token;
    IdInMark("<<<", s, BehindOpening(s, body), h, k);
    if !(h == s && k == 17) { IdBehindOpening(s, body, h, k - 36); }
  }

  lemma IdBehindOpening(s: string, body: string, h: string, k: nat)
    requires Token(h) && Token(s) && FreeText(body, h) && At(BehindOpening(s, body), h, k)
    ensures h == s && k == |BehindOpening(s, body)| - 19
  {
    hide At;
    hide CloseMark;
    NewlineNoHex();
    hide IsHex;
    BlockParts(s, body);
    TokenLength(s);
    hide Token;
    BehindFew("", '\n', body + "\n" + CloseMark(s), h, k);
    AcrossNothing(body, '\n', CloseMark(s), h, k - 1);
    NotThere(body, h, k - 1);
    IdInMark("<<<END_", s, "", h, k - 2 - |body|);
    NotThere("", h, k - 2 - |body| - 40);
  }

  lemma NotThere(body: string, h: string, k: int)
    requires FreeText(body, h) || |body| < |h|
    ensures k >= 0 ==> !At(body, h, k)
  {
    if k >= 0 && At(body, h, k) { AtBound(body, h, k); }
  }

  lemma NewlineNoHex()
    ensures !IsHex('\n')
  {
  }

  lemma TokenLength(s: string)
    requires Token(s)
    ensures |s| == 16
  {
  }

  /** In a result with a block no id stands but the block's own, in its two marks. */
  lemma IdInResult(result: string, body: string, s: string, h: string, k: nat)
    requires Token(h) && Token(s) && FreeText(result, h) && FreeText(body, h)
    requires At(WithBlock(result, Block(s, body)), h, k)
    ensures h == s && (k == OpenId(result, s, body) || k == CloseId(result, s, body))
  {
    hide Token;
    hide Block;
    var block := Block(s, body);
    if AllSpace(result) {
      IdInBlock(s, body, h, k);
    } else {
      var head := RStrip(result);
      NewlineNoHex();
      assert head + "\n\n" + block == head + "\n" + ("" + "\n" + block);
      AcrossNothing(head, '\n', "" + "\n" + block, h, k);
      AtTake(result, |head|, h, k);
      BehindFew("", '\n', block, h, k - |head| - 1);
      IdInBlock(s, body, h, k - |head| - 2);
    }
  }

  /** The block's own id stands in both its marks. */
  lemma OpeningOwn(s: string, rest: string)
    requires Token(s)
    ensures var mark := "<<<" + "USER_STEER id=" + s + ">>>" + rest;
            At(mark, IdOf(s), 14) && mark[33] == '>' && At(mark, MARKER_ID, 3)
  {
    var mark := "<<<" + "USER_STEER id=" + s + ">>>" + rest;
    assert mark == "<<<USER_STEER " + IdOf(s) + (">>>" + rest);
    assert mark[14..33] == IdOf(s);
    assert mark[3..17] == MARKER_ID;
  }

  lemma ClosingOwn(front: string, s: string)
    requires Token(s)
    ensures var mark := front + CloseMark(s);
            |mark| >= 22 && At(mark, IdOf(s), |mark| - 22) && mark[|mark| - 3] == '>'
  {
    var mark := front + CloseMark(s);
    assert mark == (front + "<<<END_USER_STEER ") + IdOf(s) + ">>>";
    assert mark[|mark| - 22..|mark| - 3] == IdOf(s);
  }

  lemma BlockOwn(s: string, body: string)
    requires Token(s)
    ensures var block := Block(s, body);
            && |block| >= 76 && At(block, IdOf(s), 14) && block[33] == '>' && At(block, MARKER_ID, 3)
            && At(block, IdOf(s), |block| - 22) && block[|block| - 3] == '>'
  {
    TokenLength(s);
    hide Token;
    hide At;
    BlockParts(s, body);
    OpeningOwn(s, BehindOpening(s, body));
    var front := OpenMark(s) + "\n" + body + "\n";
    ClosingOwn(front, s);
    assert Block(s, body) == front + CloseMark(s);
  }

  lemma OwnIds(result: string, body: string, s: string)
    requires Token(s)
    ensures var text := WithBlock(result, Block(s, body));
            var p, q := OpenId(result, s, body), CloseId(result, s, body);
            && 3 <= p < q - 3 && q + 19 == |text| && At(text, IdOf(s), p - 3) && At(text, IdOf(s), q - 3)
            && text[p + 16] == '>' && text[q + 16] == '>' && Has(text, MARKER_ID)
  {
    var text, block := WithBlock(result, Block(s, body)), Block(s, body);
    var start := |text| - |block|;
    BlockOwn(s, body);
    hide At;
    hide Block;
    assert text[start..] == block;
    AtDrop(text, start, IdOf(s), 14);
    AtDrop(text, start, IdOf(s), |block| - 22);
    AtDrop(text, start, MARKER_ID, 3);
    AtBound(text, MARKER_ID, start + 3);
  }

  /** A result with a block, in the request: the nonce stands in the two marks of the block, and nowhere
      else in it, for any text of the result and of the notes that holds no issued id. */
  lemma NonceInBlock(result: string, body: string, s: string, slots: set<string>, nonce: string, k: nat)
    requires Tokens(slots) && Token(nonce) && s in slots && nonce !in slots
    requires forall h :: h in slots + {nonce} ==> FreeText(result, h) && FreeText(body, h)
    ensures At(SplicedText(WithBlock(result, Block(s, body)), slots, nonce), nonce, k)
       <==> k == OpenId(result, s, body) || k == CloseId(result, s, body)
  {
    hide Rewrite;
    hide WithBlock;
    hide Token;
    hide At;
    hide OpenId;
    hide CloseId;
    var text := WithBlock(result, Block(s, body));
    var out := Rewrite(text, slots, nonce);
    OwnIds(result, body, s);
    assert SplicedText(text, slots, nonce) == out;
    if At(out, nonce, k) {
      var h, p := IssuedThere(text, slots, nonce, k) by { NonceFree(result, body, s, slots, nonce); }
      IdInResult(result, body, s, h, p);
      AngleBehind(text, slots, nonce, k, p + 16);
    }
    if k == OpenId(result, s, body) || k == CloseId(result, s, body) {
      RewriteExact(text, slots, nonce, k - 3);
      AtConcat(out, "id=", nonce, k - 3);
    }
  }

  /** Where the nonce stands now an issued id stood, or began before. */
  lemma IssuedThere(text: string, slots: set<string>, nonce: string, k: nat) returns (h: string, p: nat)
    requires Tokens(slots) && Token(nonce) && !Has(text, nonce) && At(Rewrite(text, slots, nonce), nonce, k)
    ensures h in slots && At(text, h, p) && p <= k < p + 16 <= |text|
  {
    hide Rewrite;
    NonceOnlyInIds(text, slots, nonce, k);
    var q :| 0 <= q && q + 3 <= k < q + 19 && q + 19 <= |text| && StartsId(text[q..], slots);
    h, p := text[q..][3..19], q + 3;
    assert text[p..p + 16] == h;
    TokenLength(h);
  }

  lemma NonceFree(result: string, body: string, s: string, slots: set<string>, nonce: string)
    requires Token(s) && Token(nonce) && s in slots && nonce !in slots
    requires FreeText(result, nonce) && FreeText(body, nonce)
    ensures !Has(WithBlock(result, Block(s, body)), nonce)
  {
    var text := WithBlock(result, Block(s, body));
    forall k | 0 <= k <= |text| ensures !At(text, nonce, k) {
      if At(text, nonce, k) { IdInResult(result, body, s, nonce, k); }
    }
  }

  /** The nonce does not reach over a `>`. */
  lemma AngleBehind(text: string, slots: set<string>, nonce: string, k: nat, q: nat)
    requires Tokens(slots) && Token(nonce) && k < q < |text| && text[q] == '>'
    requires At(Rewrite(text, slots, nonce), nonce, k)
    ensures k + 16 <= q
  {
    RewriteKeeps(text, slots, nonce, q);
    assert !IdAlphabet('>');
    if q < k + 16 { AtHex(Rewrite(text, slots, nonce), nonce, k, q); }
  }

  lemma AtHex(s: string, h: string, k: nat, q: nat)
    requires Token(h) && At(s, h, k) && k <= q < k + 16
    ensures IsHex(s[q])
  {
    assert s[k..k + 16][q - k] == s[q];
  }

  // ---- a whole request -----------------------------------------------------------------

  /** The message whose placeholder is filled in. */
  predicate IsPrompt(i: nat, m: Message) {
    i == 0 && m.role == "system" && m.content.Plain? && Has(m.content.text, NONCE_PLACEHOLDER)
  }

  /** Is what stands at k of the filled-in prompt what replaced a placeholder of c? */
  ghost predicate FilledAt(c: string, nonce: string, k: nat) {
    exists a, b :: ReplacedAt(c, NONCE_PLACEHOLDER, nonce, a, b) && k == |Replace(a, NONCE_PLACEHOLDER, nonce)|
  }

  /** Does the nonce at k of the prompt stand in for a placeholder of c, or reach into one that does? */
  ghost predicate FillsIn(c: string, nonce: string, k: nat) {
    exists q: nat :: FilledAt(c, nonce, q) && Overlap(k, q, |nonce|)
  }

  /** In the request made from a conversation without the nonce, the nonce stands where a placeholder of the
      system prompt was filled in, and in ids the channel issued, and nowhere else: in the prompt, exactly there
      if its placeholders are separate, and otherwise at most across the ends of such a place. */
  lemma NonceOnlyWhereMeant(messages: seq<Message>, slots: set<string>, nonce: string, i: nat, k: nat)
    requires Tokens(slots) && Token(nonce)
    requires i < |messages| && FreeMessage(messages[i], nonce) && messages[i].content.Plain?
    ensures Spliced(messages, slots, nonce)[i].content.Plain?
    ensures var c, stands := messages[i].content.text, At(Spliced(messages, slots, nonce)[i].content.text, nonce, k);
            if IsPrompt(i, messages[i]) then
              && (FilledAt(c, nonce, k) ==> stands) && (stands ==> FillsIn(c, nonce, k))
              && (Separate(c) ==> (stands <==> FilledAt(c, nonce, k)))
            else stands ==> exists p :: 0 <= p && p + 3 <= k < p + 19 && p + 19 <= |c| && StartsId(c[p..], slots)
  {
    hide Token;
    hide Rewrite;
    hide Replace;
    hide Separate;
    var c := messages[i].content.text;
    if IsPrompt(i, messages[i]) {
      PromptPlaces(c, nonce, k);
    } else if At(SplicedText(c, slots, nonce), nonce, k) {
      if SplicedText(c, slots, nonce) == c { AtBound(c, nonce, k); }
      NonceOnlyInIds(c, slots, nonce, k);
    }
  }

  lemma PromptPlaces(c: string, nonce: string, k: nat)
    requires Token(nonce) && !Has(c, nonce)
    ensures var stands := At(Replace(c, NONCE_PLACEHOLDER, nonce), nonce, k);
            && (FilledAt(c, nonce, k) ==> stands) && (stands ==> FillsIn(c, nonce, k))
            && (Separate(c) ==> (stands <==> FilledAt(c, nonce, k)))
  {
    hide Token;
    hide Replace;
    hide Separate;
    hide ReplacedAt;
    TokenLength(nonce);
    if FilledAt(c, nonce, k) {
      var a, b :| ReplacedAt(c, NONCE_PLACEHOLDER, nonce, a, b) && k == |Replace(a, NONCE_PLACEHOLDER, nonce)|;
      FilledIn(c, NONCE_PLACEHOLDER, nonce, a, b);
    }
    if At(Replace(c, NONCE_PLACEHOLDER, nonce), nonce, k) {
      var a, b := OnlyReplaced(c, NONCE_PLACEHOLDER, nonce, k);
      assert FilledAt(c, nonce, |Replace(a, NONCE_PLACEHOLDER, nonce)|);
    }
    if Separate(c) { NonceInPrompt(c, nonce, k); }
  }

  /** The model is told the run's id: the prompt with a placeholder reads the same up to the first one, and the
      nonce stands there. */
  lemma PromptTellsNonce(messages: seq<Message>, slots: set<string>, nonce: string, a: string, b: string)
    requires messages != [] && messages[0].role == "system" && messages[0].content.Plain?
    requires messages[0].content.text == a + "__ARGUS_STEER_NONCE__" + b
    requires FirstAt(messages[0].content.text, "__ARGUS_STEER_NONCE__", |a|)
    ensures Spliced(messages, slots, nonce)[0].content.Plain?
    ensures var told := Spliced(messages, slots, nonce)[0].content.text;
            a <= told && At(told, nonce, |a|) && told[|a| + |nonce|..] == Replace(b, NONCE_PLACEHOLDER, nonce)
  {
    hide Replace;
    var c := messages[0].content.text;
    AtBound(c, NONCE_PLACEHOLDER, |a|);
    FirstFilled(c, NONCE_PLACEHOLDER, nonce, a, b);
    var rest := Replace(b, NONCE_PLACEHOLDER, nonce);
    assert (a + nonce + rest)[|a| + |nonce|..] == rest;
  }

  /** Splicing changes nothing but the text of messages. */
  lemma SplicedOnlyText(messages: seq<Message>, slots: set<string>, nonce: string, i: nat)
    requires i < |messages|
    ensures var m, m' := messages[i], Spliced(messages, slots, nonce)[i];
            && m'.role == m.role && m'.calls == m.calls && (m.content.Other? ==> m' == m)
            && (m.content.Plain? && !IsPrompt(i, m) && (slots == {} || !Has(m.content.text, "USER_STEER id=")) ==> m' == m)
  {
  }

  /** Text from outside: it holds no issued id and not the nonce. */
  ghost predicate Outside(text: string, slots: set<string>, nonce: string) {
    forall h :: h in slots + {nonce} ==> FreeText(text, h)
  }

  /** A tool result with a block that a channel appended. */
  ghost predicate HasBlock(text: string, slots: set<string>, nonce: string, result: string, body: string, s: string) {
    s in slots && Outside(result, slots, nonce) && Outside(body, slots, nonce) && text == WithBlock(result, Block(s, body))
  }

  /** What the texts of a conversation are made of. */
  ghost predicate MadeOf(m: Message, slots: set<string>, nonce: string) {
    m.content.Plain? ==>
      || Outside(m.content.text, slots, nonce)
      || exists result, body, s :: HasBlock(m.content.text, slots, nonce, result, body, s)
  }

  /** In a request the nonce stands where a placeholder of the system prompt was filled in, and in the marks
      of blocks that the channel appended to tool results. It stands nowhere else. */
  lemma NonceOnlyInBlocks(messages: seq<Message>, slots: set<string>, nonce: string, i: nat, k: nat)
    requires Tokens(slots) && Token(nonce) && nonce !in slots
    requires i < |messages| && messages[i].content.Plain? && MadeOf(messages[i], slots, nonce)
    ensures Spliced(messages, slots, nonce)[i].content.Plain?
    ensures var c, stands := messages[i].content.text, At(Spliced(messages, slots, nonce)[i].content.text, nonce, k);
            if IsPrompt(i, messages[i]) then
              && (FilledAt(c, nonce, k) ==> stands) && (stands ==> FillsIn(c, nonce, k))
              && (Separate(c) ==> (stands <==> FilledAt(c, nonce, k)))
            else
              stands <==> exists result, body, s :: HasBlock(c, slots, nonce, result, body, s)
                                                    && (k == OpenId(result, s, body) || k == CloseId(result, s, body))
  {
    hide Token;
    hide Rewrite;
    hide WithBlock;
    hide OpenId;
    hide CloseId;
    hide Replace;
    hide Separate;
    hide Outside;
    var c := messages[i].content.text;
    MadeFree(messages[i], slots, nonce);
    if IsPrompt(i, messages[i]) {
      PromptPlaces(c, nonce, k);
    } else {
      if Outside(c, slots, nonce) { NothingSpliced(c, slots, nonce, k); }
      forall result, body, s | HasBlock(c, slots, nonce, result, body, s)
        ensures At(SplicedText(c, slots, nonce), nonce, k) <==> k == OpenId(result, s, body) || k == CloseId(result, s, body)
      {
        BlockPlaces(result, body, s, slots, nonce, k);
      }
    }
  }

  lemma BlockPlaces(result: string, body: string, s: string, slots: set<string>, nonce: string, k: nat)
    requires Tokens(slots) && Token(nonce) && nonce !in slots
    requires s in slots && Outside(result, slots, nonce) && Outside(body, slots, nonce)
    ensures At(SplicedText(WithBlock(result, Block(s, body)), slots, nonce), nonce, k)
       <==> k == OpenId(result, s, body) || k == CloseId(result, s, body)
  {
    NonceInBlock(result, body, s, slots, nonce, k);
  }

  lemma OutsideFree(text: string, slots: set<string>, nonce: string, h: string)
    requires Outside(text, slots, nonce) && h in slots + {nonce}
    ensures FreeText(text, h)
  {
  }

  lemma MadeFree(m: Message, slots: set<string>, nonce: string)
    requires Tokens(slots) && Token(nonce) && nonce !in slots && m.content.Plain? && MadeOf(m, slots, nonce)
    ensures !Has(m.content.text, nonce)
  {
    hide Token;
    if Outside(m.content.text, slots, nonce) {
      OutsideFree(m.content.text, slots, nonce, nonce);
    } else {
      var result, body, s :| HasBlock(m.content.text, slots, nonce, result, body, s);
      OutsideFree(result, slots, nonce, nonce);
      OutsideFree(body, slots, nonce, nonce);
      NonceFree(result, body, s, slots, nonce);
    }
  }

  lemma NothingSpliced(c: string, slots: set<string>, nonce: string, k: nat)
    requires Tokens(slots) && Token(nonce) && Outside(c, slots, nonce)
    ensures !At(SplicedText(c, slots, nonce), nonce, k)
  {
    hide Token;
    hide Rewrite;
    OutsideFree(c, slots, nonce, nonce);
    if At(SplicedText(c, slots, nonce), nonce, k) {
      if SplicedText(c, slots, nonce) == c { AtBound(c, nonce, k); }
      NonceOnlyInIds(c, slots, nonce, k);
      var p :| 0 <= p && p + 3 <= k < p + 19 && p + 19 <= |c| && StartsId(c[p..], slots);
      var h := c[p..][3..19];
      assert c[p + 3..p + 19] == h;
      TokenLength(h);
      AtBound(c, h, p + 3);
      OutsideFree(c, slots, nonce, h);
    }
  }
}
