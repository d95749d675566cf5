/** What one chunk of a split message is made of, and how it reads. */
module TgChunk {
  import opened Text
  import opened TgMarkup
  import opened TgLex

  const HARD_CUT_MARK: string := "\U{2026}"

  // ---- positions inside the walk from token i with the tags in `carry` reopened ----

  function StackAt(toks: seq<string>, i: nat, k: nat, carry: Stack): Stack
    requires i <= k <= |toks|
  {
    ReadToks(toks[i..k], carry).open
  }

  function LenAt(toks: seq<string>, i: nat, k: nat, carry: Stack): nat
    requires i <= k <= |toks|
  {
    |Openers(carry)| + |Flatten(toks[i..k])|
  }

  /** The chunk holding the tokens i..k, closed at its end. */
  function ChunkText(toks: seq<string>, i: nat, k: nat, carry: Stack): string
    requires i <= k <= |toks|
  {
    Openers(carry) + Flatten(toks[i..k]) + Closers(StackAt(toks, i, k, carry))
  }

  /** The chunk holding the tokens i..j and the first `room` characters of token j. */
  function SlicedText(toks: seq<string>, i: nat, j: nat, room: nat, carry: Stack): string
    requires i <= j < |toks| && room <= |toks[j]|
  {
    Openers(carry) + Flatten(toks[i..j]) + (toks[j][..room] + HARD_CUT_MARK) + Closers(StackAt(toks, i, j, carry))
  }

  lemma AtStart(toks: seq<string>, i: nat, carry: Stack)
    requires i <= |toks|
    ensures StackAt(toks, i, i, carry) == carry
    ensures LenAt(toks, i, i, carry) == |Openers(carry)|
  {
    assert toks[i..i] == [];
  }

  lemma AtNext(toks: seq<string>, i: nat, k: nat, carry: Stack)
    requires i <= k < |toks|
    ensures StackAt(toks, i, k + 1, carry) == Applied(StackAt(toks, i, k, carry), toks[k])
    ensures LenAt(toks, i, k + 1, carry) == LenAt(toks, i, k, carry) + |toks[k]|
  {
    hide ParseTag;
    assert toks[i..k + 1] == toks[i..k] + [toks[k]];
    FlattenSnoc(toks[i..k], toks[k]);
    ReadToksConcat(toks[i..k], [toks[k]], carry);
    ReadToksOne(toks[k], StackAt(toks, i, k, carry));
    InertApplied(toks[k], StackAt(toks, i, k, carry));
  }

  lemma InertApplied(tok: string, st: Stack)
    ensures TokStep(tok, st).open == Applied(st, tok)
  {
  }

  lemma BlankIsNoTag(tok: string)
    requires IsBlank(tok)
    ensures !IsTag(tok) && '<' !in tok
  {
    assert IsSpace(tok[0]);
    PlainIsNoTag(tok);
    assert forall k :: 0 <= k < |tok| ==> IsSpace(tok[k]);
  }

  // ---- reading a chunk ------------------------------------------------------

  /** Openers, a body, closers: reads as the body, from nothing open to nothing open. */
  lemma WrappedRead(carry: Stack, body: string, r: Reading)
    requires WfStack(carry) && WfStack(r.open)
    requires Read(body, carry) == r
    ensures Read(Openers(carry) + body + Closers(r.open), []) == Reading(r.shown, [], r.nested)
  {
    hide Read;
    hide OpenEnded;
    hide Shut;
    hide WfStack;
    var o, c := Openers(carry), Closers(r.open);
    ReadOpeners(carry);
    ReadClosers(r.open);
    NotAcross(o, body);
    ReadConcat(o, body, []);
    FirmClosers(r.open);
    NotAcross(o + body, c);
    ReadConcat(o + body, c, []);
    assert [] + r.shown == r.shown;
    assert r.shown + [] == r.shown;
  }

  lemma FirmClosers(st: Stack)
    ensures Closers(st) == "" || Closers(st)[0] == '<'
  {
  }

  lemma ChunkRead(toks: seq<string>, i: nat, k: nat, carry: Stack)
    requires i <= k <= |toks|
    requires Clean(toks[i..]) && WfStack(carry)
    ensures WfStack(StackAt(toks, i, k, carry))
    ensures Read(ChunkText(toks, i, k, carry), [])
         == Reading(ReadToks(toks[i..k], carry).shown, [], ReadToks(toks[i..k], carry).nested)
  {
    hide Read;
    hide Clean;
    hide WfStack;
    CleanTake(toks[i..], k - i);
    assert toks[i..][..k - i] == toks[i..k];
    ReadTokens(toks[i..k], carry);
    ReadToksWf(toks[i..k], carry);
    WrappedRead(carry, Flatten(toks[i..k]), ReadToks(toks[i..k], carry));
  }

  /** The reading of the rest splits at any token. */
  lemma RestRead(toks: seq<string>, i: nat, k: nat, carry: Stack)
    requires i <= k <= |toks|
    ensures ReadToks(toks[i..], carry)
         == Then(ReadToks(toks[i..k], carry), ReadToks(toks[k..], StackAt(toks, i, k, carry)))
  {
    assert toks[i..] == toks[i..k] + toks[k..];
    ReadToksConcat(toks[i..k], toks[k..], carry);
  }

  // ---- reading a token cut in two -------------------------------------------

  lemma SkipSpacePrefix(p: string, x: string, k: nat)
    requires k <= |p|
    ensures SkipSpace(p, k) < |p| ==> SkipSpace(p + x, k) == SkipSpace(p, k)
    decreases |p| - k
  {
  }

  /** Cutting a token that is no tag, and marking the cut, makes no tag either. */
  lemma MarkedIsNoTag(tok: string, room: nat)
    requires room <= |tok| && !IsTag(tok)
    ensures !IsTag(tok[..room] + HARD_CUT_MARK)
  {
    var p := tok[..room];
    var m := p + HARD_CUT_MARK;
    assert tok == p + tok[room..];
    if p != "" && p[0] == '<' {
      SkipSpacePrefix(p, HARD_CUT_MARK, 1);
      SkipSpacePrefix(p, tok[room..], 1);
      var a := SkipSpace(p, 1);
      assert a < |p| ==> m[a] == p[a] == tok[a];
      if a < |p| {
        var a' := if p[a] == '/' then a + 1 else a;
        SkipSpacePrefix(p, HARD_CUT_MARK, a');
        SkipSpacePrefix(p, tok[room..], a');
        var b := SkipSpace(p, a');
        assert b < |p| ==> m[b] == p[b] == tok[b];
        SpaceRunThenMark(p, a');
      } else {
        SpaceRunThenMark(p, 1);
      }
    }
  }

  /** Nor does the part before the cut without the mark. */
  lemma PartIsNoTag(tok: string, room: nat)
    requires room <= |tok| && !IsTag(tok)
    ensures !IsTag(tok[..room])
  {
    var p := tok[..room];
    assert tok == p + tok[room..];
    if p != "" && p[0] == '<' {
      SkipSpacePrefix(p, tok[room..], 1);
      var a := SkipSpace(p, 1);
      if a < |p| {
        var a' := if p[a] == '/' then a + 1 else a;
        SkipSpacePrefix(p, tok[room..], a');
        var b := SkipSpace(p, a');
        assert tok[a] == p[a] && (b < |p| ==> tok[b] == p[b]);
      }
    }
  }

  lemma SpaceRunThenMark(p: string, k: nat)
    requires k <= |p|
    ensures SkipSpace(p, k) == |p| ==> SkipSpace(p + HARD_CUT_MARK, k) == |p|
    decreases |p| - k
  {
  }

  lemma MarkedOk(tok: string, room: nat)
    requires TokOk(tok) && !IsTag(tok) && 0 < room < |tok|
    ensures TokOk(tok[..room] + HARD_CUT_MARK)
    ensures TokOk(tok[room..]) && '<' !in tok[room..] && tok[room..] != "&"
    ensures IsBlank(tok[room..]) <==> IsBlank(tok)
    ensures !IsTag(tok[room..])
  {
    hide ParseTag;
    hide AmpEnded;
    MarkedIsNoTag(tok, room);
    var m, rest := tok[..room] + HARD_CUT_MARK, tok[room..];
    assert forall k :: 0 <= k < |rest| ==> rest[k] == tok[k + room];
    assert forall k :: 0 <= k < room ==> m[k] == tok[k];
    assert rest[|rest| - 1] == tok[|tok| - 1];
    PlainIsNoTag(rest);
    MarkEnds(tok[..room]);
    AmpEndedRest(tok, room);
    AmpIsEnded();
    if tok[0] == '<' {
      assert Dangling(m);
    }
  }

  lemma MarkEnds(s: string)
    ensures !AmpEnded(s + HARD_CUT_MARK)
  {
    var m := s + HARD_CUT_MARK;
    assert m[|m| - 1] == HARD_CUT_MARK[0];
  }

  lemma AmpIsEnded()
    ensures AmpEnded("&")
  {
    assert "&"[0] == '&';
  }

  lemma AmpEndedRest(s: string, n: nat)
    requires n <= |s|
    ensures AmpEnded(s[n..]) ==> AmpEnded(s)
  {
    var t := s[n..];
    if AmpEnded(t) {
      var k :| 0 <= k < |t| && t[k] == '&' && forall m :: k < m < |t| ==> IsEntityChar(t[m]);
      forall m | k + n < m < |s| ensures IsEntityChar(s[m]) { assert s[m] == t[m - n]; }
      assert s[k + n] == '&';
    }
  }

  lemma ShutUpTo(u: seq<string>, k: nat, room: nat)
    requires k < |u| && room <= |u[k]| && Shut(Flatten(u))
    ensures Shut(Flatten(u[..k] + [u[k][..room] + HARD_CUT_MARK]))
  {
    hide Shut;
    var head, tail := u[k][..room], u[k][room..];
    FlattenSplit(u, k);
    var before, after := Flatten(u[..k]), Flatten(u[k..][1..]);
    assert u[k..][0] == head + tail;
    assert Flatten(u) == (before + head) + (tail + after);
    ShutPrefix(before + head, tail + after);
    ShutMark();
    ShutConcat(before + head, HARD_CUT_MARK);
    FlattenSnoc(u[..k], head + HARD_CUT_MARK);
    assert before + (head + HARD_CUT_MARK) == (before + head) + HARD_CUT_MARK;
  }

  lemma NoEntityUpTo(u: seq<string>, k: nat, room: nat)
    requires k < |u| && room <= |u[k]| && EntityLen("&" + Flatten(u)) == 0
    ensures EntityLen("&" + Flatten(u[..k] + [u[k][..room] + HARD_CUT_MARK])) == 0
  {
    hide EntityLen;
    var head, tail := u[k][..room], u[k][room..];
    FlattenSplit(u, k);
    var before, after := Flatten(u[..k]), Flatten(u[k..][1..]);
    assert u[k..][0] == head + tail;
    assert Flatten(u) == (before + head) + (tail + after);
    AmpPrefix(before + head, tail + after);
    FlattenSnoc(u[..k], head + HARD_CUT_MARK);
    assert "&" + (before + (head + HARD_CUT_MARK)) == ("&" + (before + head)) + HARD_CUT_MARK;
    MarkAfter("&" + (before + head));
  }

  /** The mark is part of no entity. */
  lemma MarkAfter(s: string)
    requires s != ""
    ensures NoEntityAcross(s, HARD_CUT_MARK) && EntityLen(s + HARD_CUT_MARK) == EntityLen(s)
  {
    NotAcross(s, HARD_CUT_MARK);
    assert s[0..] == s;
    EntityInPrefix(s, HARD_CUT_MARK);
  }

  lemma {:induction false} CleanSlice(toks: seq<string>, k: nat, room: nat)
    requires Clean(toks) && k < |toks| && room <= |toks[k]|
    requires TokOk(toks[k][..room] + HARD_CUT_MARK)
    ensures Clean(toks[..k] + [toks[k][..room] + HARD_CUT_MARK])
    decreases k
  {
    hide TokOk;
    hide Dangling;
    hide Shut;
    hide Flatten;
    var cut := toks[k][..room] + HARD_CUT_MARK;
    if k == 0 {
      CleanOne(cut);
      assert toks[..0] + [cut] == [cut];
    } else {
      CleanSlice(toks[1..], k - 1, room);
      assert (toks[..k] + [cut])[1..] == toks[1..][..k - 1] + [cut];
      if Dangling(toks[0]) { ShutUpTo(toks[1..], k - 1, room); }
      if toks[0] == "&" { NoEntityUpTo(toks[1..], k - 1, room); }
    }
  }

  lemma ShutMark()
    ensures Shut(HARD_CUT_MARK)
  {
  }

  lemma SlicedRead(toks: seq<string>, i: nat, j: nat, room: nat, carry: Stack)
    requires i <= j < |toks| && 0 < room < |toks[j]|
    requires Clean(toks[i..]) && WfStack(carry) && !IsTag(toks[j])
    ensures Read(SlicedText(toks, i, j, room, carry), [])
         == Reading(ReadToks(toks[i..j], carry).shown
                    + Glyphs(toks[j][..room] + HARD_CUT_MARK, StackAt(toks, i, j, carry)),
                    [], ReadToks(toks[i..j], carry).nested)
  {
    hide Read;
    hide WfStack;
    hide TokOk;
    hide Dangling;
    hide Clean;
    var cut := toks[j][..room] + HARD_CUT_MARK;
    var st := StackAt(toks, i, j, carry);
    CleanSuffix(toks[i..], j - i);
    assert toks[i..][j - i..] == toks[j..];
    CleanHead(toks[j..]);
    MarkedOk(toks[j], room);
    MarkedIsNoTag(toks[j], room);
    CleanSlice(toks[i..], j - i, room);
    assert toks[i..][..j - i] == toks[i..j];
    var pieces := toks[i..j] + [cut];
    FlattenSnoc(toks[i..j], cut);
    ReadTokens(pieces, carry);
    ReadToksConcat(toks[i..j], [cut], carry);
    ReadToksOne(cut, st);
    ReadToksWf(pieces, carry);
    WrappedRead(carry, Flatten(pieces), ReadToks(pieces, carry));
    assert Openers(carry) + (Flatten(toks[i..j]) + cut) == Openers(carry) + Flatten(toks[i..j]) + cut;
  }

  lemma CleanHead(toks: seq<string>)
    requires Clean(toks) && toks != []
    ensures TokOk(toks[0])
  {
  }

  lemma CleanOne(tok: string)
    requires TokOk(tok)
    ensures Clean([tok])
  {
    hide TokOk;
    assert Clean([tok][1..]);
    assert Shut(Flatten([tok][1..]));
  }
}
