/** `str.replace`, and the two rewritings the steering channel is built on: stripping the nonce from
    what the model says, and putting it in place of the ids the channel issued. */
module Replacing {
  import opened Text

  /** s.replace(pat, rep): left to right, without overlaps. */
  function Replace(s: string, pat: string, rep: string): string
    requires pat != ""
    decreases |s|
  {
    if |s| < |pat| then s
    else if s[..|pat|] == pat then rep + Replace(s[|pat|..], pat, rep)
    else [s[0]] + Replace(s[1..], pat, rep)
  }

  predicate IsHex(c: char) {
    '0' <= c <= '9' || 'a' <= c <= 'f'
  }

  /** What `secrets.token_hex(8)` returns. */
  predicate Token(h: string) {
    |h| == 16 && forall k :: 0 <= k < |h| ==> IsHex(h[k])
  }

  /** A prefix of the result that contains no first character of a replacement was there before. */
  lemma {:induction false} PrefixKept(s: string, pat: string, rep: string, h: string)
    requires pat != "" && rep != "" && rep[0] !in h
    requires h <= Replace(s, pat, rep)
    ensures h <= s
    decreases |s|
  {
    if h != "" && |s| >= |pat| {
      assert Replace(s, pat, rep)[0] == h[0] && h[0] in h;
      if s[..|pat|] != pat {
        var r := Replace(s[1..], pat, rep);
        assert ([s[0]] + r)[1..] == r;
        assert h[1..] <= r;
        PrefixKept(s[1..], pat, rep, h[1..]);
        assert s[1..][..|h| - 1] == h[1..];
      }
    }
  }

  // ---- stripping the nonce ------------------------------------------------------

  const REDACTED: string := "[steer-id redacted]"

  function Scrub(s: string, nonce: string): string
    requires nonce != ""
  {
    Replace(s, nonce, REDACTED)
  }

  /** No occurrence of a token starts inside the replacement text. */
  lemma RedactedHoldsNoToken(rest: string, nonce: string, k: nat)
    requires Token(nonce) && k < |REDACTED|
    ensures !At(REDACTED + rest, nonce, k)
  {
    var bad := if k <= 6 then 6 else 18;
    assert (REDACTED + rest)[bad] == REDACTED[bad];
    NotAt(REDACTED + rest, nonce, k, bad - k);
  }

  lemma NotAt(s: string, sub: string, k: nat, q: nat)
    requires q < |sub| && (k + q < |s| ==> s[k + q] != sub[q])
    ensures !At(s, sub, k)
  {
    assert k + |sub| <= |s| ==> s[k..k + |sub|][q] == s[k + q];
  }

  lemma AtShift(a: string, s: string, sub: string, k: nat)
    requires k >= |a|
    ensures At(a + s, sub, k) <==> At(s, sub, k - |a|)
  {
    if k + |sub| <= |a| + |s| {
      assert (a + s)[k..k + |sub|] == s[k - |a|..k - |a| + |sub|];
    }
  }

  /** Whatever the model echoes, nothing that comes back from it contains the nonce. */
  lemma {:induction false} ScrubRemoves(s: string, nonce: string)
    requires Token(nonce)
    ensures !Has(Scrub(s, nonce), nonce)
    decreases |s|
  {
    var out := Scrub(s, nonce);
    if |s| >= 16 {
      if s[..16] == nonce {
        ScrubRemoves(s[16..], nonce);
        var rest := Scrub(s[16..], nonce);
        forall k | 0 <= k <= |out| ensures !At(out, nonce, k) {
          if k < |REDACTED| { RedactedHoldsNoToken(rest, nonce, k); } else { AtShift(REDACTED, rest, nonce, k); }
        }
      } else {
        ScrubRemoves(s[1..], nonce);
        var rest := Scrub(s[1..], nonce);
        assert out == [s[0]] + rest;
        forall k | 0 <= k <= |out| ensures !At(out, nonce, k) {
          if k == 0 {
            assert '[' !in nonce[1..] by { assert forall q :: 1 <= q < 16 ==> IsHex(nonce[q]); }
            assert s[..16] == [s[0]] + s[1..][..15];
            assert nonce == [nonce[0]] + nonce[1..];
            if At(out, nonce, 0) {
              assert out[0..16] == nonce;
              assert out[1..] == rest;
              assert out[1..][..15] == out[0..16][1..];
              assert rest[..15] == nonce[1..];
              PrefixKept(s[1..], nonce, REDACTED, nonce[1..]);
              assert false;
            }
          } else {
            AtShift([s[0]], rest, nonce, k);
          }
        }
      }
    }
  }

  /** Text without the nonce is left alone. */
  lemma {:induction false} ReplaceAbsent(s: string, pat: string, rep: string)
    requires pat != "" && !Has(s, pat)
    ensures Replace(s, pat, rep) == s
    decreases |s|
  {
    if |s| >= |pat| {
      assert !At(s, pat, 0);
      assert s[0..|pat|] == s[..|pat|];
      HasSuffix(s, 1, pat);
      ReplaceAbsent(s[1..], pat, rep);
    }
  }

  lemma HasSuffix(s: string, n: nat, sub: string)
    requires n <= |s|
    ensures Has(s[n..], sub) ==> Has(s, sub)
  {
    if Has(s[n..], sub) {
      var k :| 0 <= k <= |s[n..]| && At(s[n..], sub, k);
      assert s == s[..n] + s[n..];
      AtShift(s[..n], s[n..], sub, k + n);
    }
  }

  // ---- putting the nonce in place of the issued ids ------------------------------

  function IdOf(h: string): string {
    "id=" + h
  }

  /** Does an `id=` with one of these ids start here? */
  predicate StartsId(c: string, ids: set<string>) {
    |c| >= 19 && c[..3] == "id=" && c[3..19] in ids
  }

  /** All ids at once, left to right. */
  function Rewrite(c: string, ids: set<string>, nonce: string): string
    decreases |c|
  {
    if c == "" then ""
    else if StartsId(c, ids) then IdOf(nonce) + Rewrite(c[19..], ids, nonce)
    else [c[0]] + Rewrite(c[1..], ids, nonce)
  }

  ghost predicate Tokens(ids: set<string>) {
    forall h :: h in ids ==> Token(h)
  }

  lemma TokenHasNoI(h: string)
    requires Token(h)
    ensures 'i' !in h && '=' !in h && 'i' !in "d=" + h
  {
    assert forall k :: 0 <= k < 16 ==> IsHex(h[k]);
  }

  lemma IdParts(h: string)
    requires Token(h)
    ensures |IdOf(h)| == 19 && IdOf(h)[..3] == "id=" && IdOf(h)[3..] == h && IdOf(h)[1..] == "d=" + h
    ensures IdOf(h)[0] == 'i' && 'i' !in IdOf(h)[1..]
  {
    TokenHasNoI(h);
  }

  lemma StartsIdOf(c: string, ids: set<string>)
    requires StartsId(c, ids)
    ensures c == IdOf(c[3..19]) + c[19..]
  {
    assert c == c[..3] + c[3..19] + c[19..];
  }

  lemma {:induction false} RewriteLength(c: string, ids: set<string>, nonce: string)
    requires Token(nonce)
    ensures |Rewrite(c, ids, nonce)| == |c|
    decreases |c|
  {
    if c != "" {
      if StartsId(c, ids) { RewriteLength(c[19..], ids, nonce); } else { RewriteLength(c[1..], ids, nonce); }
    }
  }

  lemma StartsWithI(c: string, ids: set<string>)
    ensures c != "" && c[0] != 'i' ==> !StartsId(c, ids)
  {
    assert |c| >= 3 ==> c[..3][0] == c[0];
  }

  /** Rewriting passes over text without an `i`. */
  lemma {:induction false} RewritePass(x: string, y: string, ids: set<string>, nonce: string)
    requires 'i' !in x
    ensures Rewrite(x + y, ids, nonce) == x + Rewrite(y, ids, nonce)
    decreases |x|
  {
    if x == "" {
      assert x + y == y;
    } else {
      assert (x + y)[0] == x[0];
      StartsWithI(x + y, ids);
      assert (x + y)[1..] == x[1..] + y;
      RewritePass(x[1..], y, ids, nonce);
    }
  }

  /** A prefix of the result without an `i` was there before. */
  lemma {:induction false} RewritePrefix(c: string, ids: set<string>, nonce: string, h: string)
    requires 'i' !in h && h <= Rewrite(c, ids, nonce)
    ensures h <= c
    decreases |c|
  {
    if h != "" && c != "" {
      assert Rewrite(c, ids, nonce)[0] == h[0] && h[0] in h;
      if !StartsId(c, ids) {
        var r := Rewrite(c[1..], ids, nonce);
        assert ([c[0]] + r)[1..] == r;
        assert h[1..] <= r;
        RewritePrefix(c[1..], ids, nonce, h[1..]);
        assert c[1..][..|h| - 1] == h[1..];
      }
    }
  }

  /** `replace` passes over text where no id starts. */
  lemma {:induction false} ReplacePass(x: string, y: string, s: string, rep: string)
    requires 'i' !in x
    ensures Replace(x + y, IdOf(s), rep) == x + Replace(y, IdOf(s), rep)
    decreases |x|
  {
    if x == "" {
      assert x + y == y;
    } else {
      assert (x + y)[0] == x[0];
      assert (x + y)[1..] == x[1..] + y;
      ReplacePass(x[1..], y, s, rep);
      if |x + y| >= |IdOf(s)| {
        assert (x + y)[..|IdOf(s)|][0] != IdOf(s)[0];
      } else {
        assert Replace(y, IdOf(s), rep) == y;
      }
    }
  }

  lemma ReplaceOtherId(t: string, y: string, s: string, nonce: string)
    requires Token(t) && Token(s) && t != s
    ensures Replace(IdOf(t) + y, IdOf(s), IdOf(nonce)) == IdOf(t) + Replace(y, IdOf(s), IdOf(nonce))
  {
    hide Token;
    IdParts(t);
    IdParts(s);
    var x := IdOf(t) + y;
    assert x[..19] == IdOf(t);
    assert IdOf(t)[3..] != IdOf(s)[3..];
    assert x[1..] == IdOf(t)[1..] + y;
    ReplacePass(IdOf(t)[1..], y, s, IdOf(nonce));
    assert [x[0]] + IdOf(t)[1..] == IdOf(t);
    assert [x[0]] + (IdOf(t)[1..] + Replace(y, IdOf(s), IdOf(nonce)))
        == IdOf(t) + Replace(y, IdOf(s), IdOf(nonce));
  }

  lemma ReplaceThisId(y: string, s: string, nonce: string)
    requires Token(s)
    ensures Replace(IdOf(s) + y, IdOf(s), IdOf(nonce)) == IdOf(nonce) + Replace(y, IdOf(s), IdOf(nonce))
  {
    assert (IdOf(s) + y)[..|IdOf(s)|] == IdOf(s);
    assert (IdOf(s) + y)[|IdOf(s)|..] == y;
  }

  lemma StartsIdHere(c: string, s: string)
    requires Token(s)
    ensures StartsId(c, {s}) <==> |c| >= 19 && c[..19] == IdOf(s)
  {
    IdParts(s);
    if |c| >= 19 {
      assert c[..19] == c[..3] + c[3..19];
      assert IdOf(s) == IdOf(s)[..3] + IdOf(s)[3..];
      assert c[..19][..3] == c[..3] && c[..19][3..] == c[3..19];
    }
  }

  /** Rewriting what follows the first character does not make an id start at it. */
  lemma SameStart(c: string, s: string, ids: set<string>, nonce: string)
    requires c != "" && Token(s) && !StartsId(c, {s})
    ensures var out := [c[0]] + Rewrite(c[1..], ids, nonce); |out| < 19 || out[..19] != IdOf(s)
  {
    hide Token;
    IdParts(s);
    StartsIdHere(c, s);
    var r := Rewrite(c[1..], ids, nonce);
    var out := [c[0]] + r;
    assert |c| >= 19 ==> c[..19] == [c[0]] + c[1..][..18];
    if |out| >= 19 && out[..19] == IdOf(s) {
      assert IdOf(s) == [c[0]] + IdOf(s)[1..];
      assert r[..18] == out[..19][1..] == IdOf(s)[1..];
      RewritePrefix(c[1..], ids, nonce, IdOf(s)[1..]);
      assert false;
    }
  }

  /** One more `replace` adds one more id to what is rewritten: so the order does not matter. */
  lemma {:induction false} RewriteOneMore(c: string, ids: set<string>, s: string, nonce: string)
    requires Tokens(ids) && Token(s) && Token(nonce)
    ensures Replace(Rewrite(c, ids, nonce), IdOf(s), IdOf(nonce)) == Rewrite(c, ids + {s}, nonce)
    decreases |c|
  {
    hide Token;
    if c == "" {
      IdParts(s);
    } else if StartsId(c, ids) {
      var y := Rewrite(c[19..], ids, nonce);
      RewriteOneMore(c[19..], ids, s, nonce);
      if s == nonce { ReplaceThisId(y, s, nonce); } else { ReplaceOtherId(nonce, y, s, nonce); }
    } else if StartsId(c, {s}) {
      StartsIdOf(c, {s});
      RewriteOneMore(c[19..], ids, s, nonce);
      OneMoreHere(c, ids, s, nonce);
    } else {
      RewriteOneMore(c[1..], ids, s, nonce);
      OneMorePast(c, ids, s, nonce);
    }
  }

  lemma OneMoreHere(c: string, ids: set<string>, s: string, nonce: string)
    requires Tokens(ids) && Token(s) && Token(nonce) && |c| >= 19 && c[..19] == IdOf(s)
    requires !StartsId(c, ids) && StartsId(c, {s}) && StartsId(c, ids + {s})
    requires Replace(Rewrite(c[19..], ids, nonce), IdOf(s), IdOf(nonce)) == Rewrite(c[19..], ids + {s}, nonce)
    ensures Replace(Rewrite(c, ids, nonce), IdOf(s), IdOf(nonce)) == Rewrite(c, ids + {s}, nonce)
  {
    hide Token;
    hide Replace;
    hide StartsId;
    var y := c[19..];
    RewriteFirst(c, ids + {s}, nonce);
    RewriteOver(c, s, ids, nonce);
    hide Rewrite;
    hide IdOf;
    ReplaceThisId(Rewrite(y, ids, nonce), s, nonce);
  }

  /** An id that is not one of `ids` is left as it is. */
  lemma RewriteOver(c: string, s: string, ids: set<string>, nonce: string)
    requires Token(s) && |c| >= 19 && c[..19] == IdOf(s) && !StartsId(c, ids)
    ensures Rewrite(c, ids, nonce) == IdOf(s) + Rewrite(c[19..], ids, nonce)
  {
    var y, w := c[19..], IdOf(s);
    IdParts(s);
    FirstOff(w, y);
    FirstOff(w, Rewrite(y, ids, nonce));
    RewriteFirst(c, ids, nonce);
    assert c == w + y;
    hide *;
    RewritePass(w[1..], y, ids, nonce);
  }

  lemma FirstOff(x: string, y: string)
    requires x != ""
    ensures (x + y)[0] == x[0] && (x + y)[1..] == x[1..] + y && [x[0]] + (x[1..] + y) == x + y
  {
    assert (x + y)[1..] == x[1..] + y;
    assert [x[0]] + x[1..] == x;
  }

  lemma RewriteFirst(c: string, ids: set<string>, nonce: string)
    requires c != ""
    ensures Rewrite(c, ids, nonce) == if StartsId(c, ids) then IdOf(nonce) + Rewrite(c[19..], ids, nonce)
                                      else [c[0]] + Rewrite(c[1..], ids, nonce)
  {
  }

  lemma OneMorePast(c: string, ids: set<string>, s: string, nonce: string)
    requires Tokens(ids) && Token(s) && Token(nonce) && c != ""
    requires !StartsId(c, ids) && !StartsId(c, {s})
    requires Replace(Rewrite(c[1..], ids, nonce), IdOf(s), IdOf(nonce)) == Rewrite(c[1..], ids + {s}, nonce)
    ensures Replace(Rewrite(c, ids, nonce), IdOf(s), IdOf(nonce)) == Rewrite(c, ids + {s}, nonce)
  {
    hide Token;
    var r := Rewrite(c[1..], ids, nonce);
    IdParts(s);
    assert ([c[0]] + r)[1..] == r;
    assert !StartsId(c, ids + {s});
    SameStart(c, s, ids, nonce);
    if |r| < 18 {
      RewriteLength(c[1..], ids, nonce);
      RewriteLength(c[1..], ids + {s}, nonce);
      assert Replace(r, IdOf(s), IdOf(nonce)) == r;
    }
  }

  /** A marker carries the run's id afterwards exactly if it carried an issued one (or the run's own
      id) before. */
  lemma {:induction false} RewriteExact(c: string, ids: set<string>, nonce: string, p: nat)
    requires Tokens(ids) && Token(nonce)
    ensures At(Rewrite(c, ids, nonce), IdOf(nonce), p)
       <==> exists s :: s in ids + {nonce} && At(c, IdOf(s), p)
    decreases |c|
  {
    hide Token;
    var out := Rewrite(c, ids, nonce);
    IdParts(nonce);
    if c == "" {
      forall s | s in ids + {nonce} ensures !At(c, IdOf(s), p) { IdParts(s); }
    } else if StartsId(c, ids) {
      var t := c[3..19];
      StartsIdOf(c, ids);
      IdParts(t);
      if p == 0 {
        assert out[..19] == IdOf(nonce);
        assert c[..19] == IdOf(t);
        assert At(out, IdOf(nonce), 0) && At(c, IdOf(t), 0);
      } else if p < 19 {
        InsideId(nonce, Rewrite(c[19..], ids, nonce), nonce, p);
        forall s | s in ids + {nonce} ensures !At(c, IdOf(s), p) {
          InsideId(t, c[19..], s, p);
        }
      } else {
        RewriteExact(c[19..], ids, nonce, p - 19);
        AtShift(IdOf(nonce), Rewrite(c[19..], ids, nonce), IdOf(nonce), p);
        forall s | s in ids + {nonce} ensures At(c, IdOf(s), p) <==> At(c[19..], IdOf(s), p - 19) {
          AtShift(IdOf(t), c[19..], IdOf(s), p);
        }
      }
    } else {
      var r := Rewrite(c[1..], ids, nonce);
      if p == 0 {
        RewriteExactHere(c, ids, nonce);
      } else {
        RewriteExact(c[1..], ids, nonce, p - 1);
        AtShift([c[0]], r, IdOf(nonce), p);
        assert c == [c[0]] + c[1..];
        forall s | s in ids + {nonce} ensures At(c, IdOf(s), p) <==> At(c[1..], IdOf(s), p - 1) {
          AtShift([c[0]], c[1..], IdOf(s), p);
        }
      }
    }
  }

  /** No id starts inside another. */
  lemma InsideId(t: string, y: string, s: string, p: nat)
    requires Token(t) && 0 < p < 19
    ensures !At(IdOf(t) + y, IdOf(s), p)
  {
    IdParts(t);
    assert (IdOf(t) + y)[p] == IdOf(t)[1..][p - 1];
    NotAt(IdOf(t) + y, IdOf(s), p, 0);
  }

  lemma RewriteExactHere(c: string, ids: set<string>, nonce: string)
    requires Tokens(ids) && Token(nonce) && c != "" && !StartsId(c, ids)
    ensures At(Rewrite(c, ids, nonce), IdOf(nonce), 0)
       <==> exists s :: s in ids + {nonce} && At(c, IdOf(s), 0)
  {
    hide Token;
    IdParts(nonce);
    StartsIdHere(c, nonce);
    assert At(c, IdOf(nonce), 0) <==> StartsId(c, {nonce}) by { assert |c| >= 19 ==> c[0..19] == c[..19]; }
    forall s | s in ids ensures !At(c, IdOf(s), 0) {
      StartsIdHere(c, s);
      IdParts(s);
      assert |c| >= 19 ==> c[0..19] == c[..19];
    }
    var out := Rewrite(c, ids, nonce);
    if StartsId(c, {nonce}) {
      StartsIdOf(c, {nonce});
      assert c[1..] == IdOf(nonce)[1..] + c[19..];
      RewritePass(IdOf(nonce)[1..], c[19..], ids, nonce);
      assert out == IdOf(nonce) + Rewrite(c[19..], ids, nonce);
      assert out[0..19] == IdOf(nonce);
      assert nonce in ids + {nonce};
    } else {
      SameStart(c, nonce, ids, nonce);
      assert |out| >= 19 ==> out[0..19] == out[..19];
    }
  }

  lemma NotInHead(nonce: string, y: string, k: nat)
    requires Token(nonce) && k < 3
    ensures !At(IdOf(nonce) + y, nonce, k)
  {
    IdParts(nonce);
    var q := if k == 1 then 1 else 0;
    assert (IdOf(nonce) + y)[k + q] == IdOf(nonce)[..3][k + q];
    NotAt(IdOf(nonce) + y, nonce, k, q);
  }

  /** In text that did not contain the nonce, it now stands only in rewritten ids. */
  lemma {:induction false} NonceOnlyInIds(c: string, ids: set<string>, nonce: string, k: nat)
    requires Tokens(ids) && Token(nonce) && !Has(c, nonce)
    requires At(Rewrite(c, ids, nonce), nonce, k)
    ensures exists p :: 0 <= p && p + 3 <= k < p + 19 && p + 19 <= |c| && StartsId(c[p..], ids)
    decreases |c|
  {
    var out := Rewrite(c, ids, nonce);
    TokenHasNoI(nonce);
    if c == "" {
    } else if StartsId(c, ids) {
      var y := Rewrite(c[19..], ids, nonce);
      if k < 3 {
        NotInHead(nonce, y, k);
        assert false;
      } else if k < 19 {
        assert c[0..] == c;
      } else {
        AtShift(IdOf(nonce), y, nonce, k);
        HasSuffix(c, 19, nonce);
        NonceOnlyInIds(c[19..], ids, nonce, k - 19);
        var p :| 0 <= p && p + 3 <= k - 19 < p + 19 && p + 19 <= |c[19..]| && StartsId(c[19..][p..], ids);
        assert c[19..][p..] == c[p + 19..];
        assert p + 19 + 3 <= k;
      }
    } else {
      var y := Rewrite(c[1..], ids, nonce);
      if k == 0 {
        assert |c| >= 16 ==> c[0..16] == [c[0]] + c[1..][..15];
        assert !At(c, nonce, 0);
        assert y[..15] == out[0..16][1..] == nonce[1..];
        assert nonce == [c[0]] + nonce[1..];
        RewritePrefix(c[1..], ids, nonce, nonce[1..]);
        assert false;
      } else {
        AtShift([c[0]], y, nonce, k);
        HasSuffix(c, 1, nonce);
        NonceOnlyInIds(c[1..], ids, nonce, k - 1);
        var p :| 0 <= p && p + 3 <= k - 1 < p + 19 && p + 19 <= |c[1..]| && StartsId(c[1..][p..], ids);
        assert c[1..][p..] == c[p + 1..];
        assert p + 1 + 3 <= k;
      }
    }
  }
}
