/** Signs: entities are shown as one, and a cut inside one shows its characters instead. */
module TgSigns {
  import opened Text
  import opened TgMarkup
  import opened TgLex
  import opened TgChunk

  /** Does a cut behind the first `room` characters go through an entity? */
  predicate Halves(s: string, room: nat) {
    exists p: nat :: p < room && p < |s| && room < p + EntityLen(s[p..])
  }

  lemma {:induction false} GlyphsConcat(a: string, b: string, st: Stack)
    requires NoEntityAcross(a, b)
    ensures Glyphs(a + b, st) == Glyphs(a, st) + Glyphs(b, st)
    decreases |a|
  {
    hide EntityLen;
    if a == "" {
      assert a + b == b;
    } else {
      assert a[0..] == a;
      EntityInPrefix(a, b);
      var n := SignLen(a);
      assert (a + b)[..n] == a[..n] && (a + b)[n..] == a[n..] + b;
      AcrossSuffix(a, n, b);
      GlyphsConcat(a[n..], b, st);
    }
  }

  /** A cut that goes through no entity leaves every sign whole. */
  lemma GlyphsCut(s: string, room: nat, st: Stack)
    requires room <= |s| && !Halves(s, room)
    ensures Glyphs(s, st) == Glyphs(s[..room], st) + Glyphs(s[room..], st)
  {
    hide EntityLen;
    var a, b := s[..room], s[room..];
    forall k | 0 <= k < |a| ensures EntityLen(a[k..] + b) <= |a[k..]| {
      assert a[k..] + b == s[k..];
    }
    GlyphsConcat(a, b, st);
    assert a + b == s;
  }

  lemma GlyphsMarked(s: string, st: Stack)
    ensures Glyphs(s + HARD_CUT_MARK, st) == Glyphs(s, st) + [Glyph(HARD_CUT_MARK, st)]
  {
    hide EntityLen;
    NotAcross(s, HARD_CUT_MARK);
    GlyphsConcat(s, HARD_CUT_MARK, st);
    MarkSign();
    assert HARD_CUT_MARK[..1] == HARD_CUT_MARK && HARD_CUT_MARK[1..] == "";
    assert Glyphs("", st) == [];
  }

  lemma MarkSign()
    ensures SignLen(HARD_CUT_MARK) == 1
  {
  }

  /** Whitespace shows as single characters. */
  lemma {:induction false} BlankGlyphs(s: string, st: Stack)
    requires AllSpace(s)
    ensures forall k :: 0 <= k < |Glyphs(s, st)| ==>
      |Glyphs(s, st)[k].sign| == 1 && IsSpace(Glyphs(s, st)[k].sign[0])
    decreases |s|
  {
    if s != "" {
      assert IsSpace(s[0]) && SignLen(s) == 1;
      BlankGlyphs(s[1..], st);
    }
  }

  // ---- character by character -----------------------------------------------------

  function Letters(s: string, st: Stack): (r: seq<Glyph>)
    ensures |r| == |s|
  {
    seq(|s|, k requires 0 <= k < |s| => Glyph([s[k]], st))
  }

  /** The same, with every entity spelled out. */
  function Spelled(shown: seq<Glyph>): seq<Glyph> {
    if shown == [] then [] else Letters(shown[0].sign, shown[0].open) + Spelled(shown[1..])
  }

  lemma {:induction false} SpelledConcat(a: seq<Glyph>, b: seq<Glyph>)
    ensures Spelled(a + b) == Spelled(a) + Spelled(b)
    decreases |a|
  {
    if a == [] {
      assert a + b == b;
    } else {
      SpelledConcat(a[1..], b);
      assert (a + b)[1..] == a[1..] + b;
      var x := Letters(a[0].sign, a[0].open);
      assert x + (Spelled(a[1..]) + Spelled(b)) == (x + Spelled(a[1..])) + Spelled(b);
    }
  }

  lemma LettersConcat(a: string, b: string, st: Stack)
    ensures Letters(a + b, st) == Letters(a, st) + Letters(b, st)
  {
  }

  lemma {:induction false} SpelledGlyphs(s: string, st: Stack)
    ensures Spelled(Glyphs(s, st)) == Letters(s, st)
    decreases |s|
  {
    hide EntityLen;
    if s != "" {
      var n := SignLen(s);
      SpelledGlyphs(s[n..], st);
      assert s == s[..n] + s[n..];
      LettersConcat(s[..n], s[n..], st);
    }
  }

  /** Wherever a text is cut, its characters stay. */
  lemma SpelledCut(s: string, room: nat, st: Stack)
    requires room <= |s|
    ensures Spelled(Glyphs(s, st)) == Spelled(Glyphs(s[..room], st)) + Spelled(Glyphs(s[room..], st))
  {
    hide Glyphs;
    hide Spelled;
    hide Letters;
    SpelledGlyphs(s, st);
    SpelledGlyphs(s[..room], st);
    SpelledGlyphs(s[room..], st);
    assert s == s[..room] + s[room..];
    LettersConcat(s[..room], s[room..], st);
  }

  // ---- counting entities -------------------------------------------------------------

  /** How many entities are shown whole. */
  function Entities(shown: seq<Glyph>): nat {
    if shown == [] then 0 else (if |shown[0].sign| > 1 then 1 else 0) + Entities(shown[1..])
  }

  lemma {:induction false} EntitiesConcat(a: seq<Glyph>, b: seq<Glyph>)
    ensures Entities(a + b) == Entities(a) + Entities(b)
    decreases |a|
  {
    if a == [] {
      assert a + b == b;
    } else {
      EntitiesConcat(a[1..], b);
      assert (a + b)[1..] == a[1..] + b;
    }
  }

  lemma {:induction false} NoEntities(shown: seq<Glyph>)
    requires forall k :: 0 <= k < |shown| ==> |shown[k].sign| <= 1
    ensures Entities(shown) == 0
    decreases |shown|
  {
    if shown != [] { NoEntities(shown[1..]); }
  }

  /** Text without an ampersand, before more text. */
  lemma {:induction false} PlainBefore(a: string, b: string, st: Stack)
    requires forall k :: 1 <= k < |a| ==> a[k] != '&'
    requires a != "" && EntityLen(a + b) == 0
    ensures Entities(Glyphs(a + b, st)) == Entities(Glyphs(b, st))
    decreases |a|
  {
    var s := a + b;
    assert SignLen(s) == 1;
    assert |s[..1]| == 1;
    assert Glyphs(s, st)[1..] == Glyphs(s[1..], st);
    if |a| > 1 {
      assert s[1..] == a[1..] + b;
      assert s[1..][0] == a[1];
      PlainBefore(a[1..], b, st);
    } else {
      assert s[1..] == b;
    }
  }

  /** A cut through an entity shows one entity less. */
  lemma {:induction false} GlyphsHalved(s: string, room: nat, st: Stack)
    requires room <= |s| && Halves(s, room)
    ensures Entities(Glyphs(s[..room], st)) + Entities(Glyphs(s[room..], st)) < Entities(Glyphs(s, st))
    decreases |s|
  {
    hide EntityLen;
    hide Halves;
    HalvedSomewhere(s, room);
    var n := SignLen(s);
    EntitiesHead(s, st);
    if room < n {
      HalvedHead(s, room, st);
    } else {
      HalvedTail(s, room);
      GlyphsHalved(s[n..], room - n, st);
      assert s[n..][room - n..] == s[room..] && s[n..][..room - n] == s[..room][n..];
      HeadKept(s, room, st);
    }
  }

  lemma EntitiesHead(s: string, st: Stack)
    requires s != ""
    ensures Entities(Glyphs(s, st)) == (if SignLen(s) > 1 then 1 else 0) + Entities(Glyphs(s[SignLen(s)..], st))
  {
    hide EntityLen;
    assert Glyphs(s, st)[1..] == Glyphs(s[SignLen(s)..], st);
  }

  lemma HalvedSomewhere(s: string, room: nat)
    requires Halves(s, room)
    ensures room > 0 && s != ""
  {
  }

  lemma HalvedTail(s: string, room: nat)
    requires s != "" && SignLen(s) <= room <= |s| && Halves(s, room)
    ensures Halves(s[SignLen(s)..], room - SignLen(s))
  {
    hide EntityLen;
    var n := SignLen(s);
    var p: nat :| p < room && p < |s| && room < p + EntityLen(s[p..]);
    assert s[0..] == s;
    NotInside(s, p);
    assert s[n..][p - n..] == s[p..];
  }

  /** No entity begins inside another. */
  lemma NotInside(s: string, p: nat)
    requires 0 < p < |s| && EntityLen(s[p..]) > 0
    ensures p >= SignLen(s)
  {
    EntityHead(s);
    EntityHead(s[p..]);
    assert s[p..][0] == s[p];
  }

  /** Neither part of an entity is one. */
  lemma HalvedHead(s: string, room: nat, st: Stack)
    requires 0 < room < EntityLen(s)
    ensures Entities(Glyphs(s[..room], st)) == 0
    ensures Entities(Glyphs(s[room..], st)) == Entities(Glyphs(s[EntityLen(s)..], st))
  {
    var n := EntityLen(s);
    var x, y := s[..room], s[room..n];
    EntityHead(s);
    assert s == x + s[room..];
    EntityInPrefix(x, s[room..]);
    assert x + "" == x;
    PlainBefore(x, "", st);
    assert Glyphs("", st) == [];
    assert s[room..] == y + s[n..] && s[room..][0] == s[room];
    EntityHead(s[room..]);
    PlainBefore(y, s[n..], st);
  }

  lemma HeadKept(s: string, room: nat, st: Stack)
    requires s != "" && SignLen(s) <= room <= |s|
    ensures Entities(Glyphs(s[..room], st))
         == (if SignLen(s) > 1 then 1 else 0) + Entities(Glyphs(s[..room][SignLen(s)..], st))
  {
    hide EntityLen;
    var x := s[..room];
    assert s == x + s[room..];
    EntityInPrefix(x, s[room..]);
    assert SignLen(x) == SignLen(s) && x[..SignLen(s)] == s[..SignLen(s)];
    assert Glyphs(x, st)[1..] == Glyphs(x[SignLen(s)..], st);
  }

  // ---- which tokens have entities in them ---------------------------------------------

  const ENTITY_MAX: nat := 14

  /** Whatever has an ampersand in it, if it is no tag, is as short as an entity. */
  predicate AmpsShort(toks: seq<string>) {
    forall k :: 0 <= k < |toks| && !IsTag(toks[k]) && '&' in toks[k] ==> |toks[k]| <= ENTITY_MAX
  }

  /** No `<...>` that is not a tag is longer than an entity and has an ampersand in it. */
  predicate NoLongBrackets(toks: seq<string>) {
    forall k :: 0 <= k < |toks| && Bracketed(toks[k]) && !IsTag(toks[k]) && '&' in toks[k] ==> |toks[k]| <= ENTITY_MAX
  }

  lemma AmpToken(s: string)
    requires s != "" && '&' in s[..TokenLen(s)]
    ensures Bracketed(s[..TokenLen(s)]) || TokenLen(s) <= ENTITY_MAX
  {
    var n := TokenLen(s);
    var tok := s[..n];
    if BracketLen(s) > 0 {
      assert forall m :: 1 <= m < n - 1 ==> !IsAngle(tok[m]);
      assert Bracketed(tok);
    } else if EntityLen(s) == 0 {
      var k :| 0 <= k < n && tok[k] == '&';
      assert s[k] == '&';
      if IsSpace(s[0]) { assert IsSpace(s[k]); }
      if !IsSpace(s[0]) && IsWordChar(s[0]) { assert IsWordChar(s[k]); }
    }
  }

  /** In a text that is lexed only brackets can be long and have an ampersand in them. */
  lemma {:induction false} LexAmps(s: string)
    ensures NoLongBrackets(Lex(s)) ==> AmpsShort(Lex(s))
    decreases |s|
  {
    hide TokenLen;
    hide IsTag;
    hide Bracketed;
    if s != "" {
      var toks := Lex(s);
      var tok, rest := s[..TokenLen(s)], Lex(s[TokenLen(s)..]);
      LexAmps(s[TokenLen(s)..]);
      if '&' in tok { AmpToken(s); }
      assert toks[0] == tok && forall k :: 1 <= k < |toks| ==> toks[k] == rest[k - 1];
      if NoLongBrackets(toks) {
        assert forall k :: 0 <= k < |rest| ==> rest[k] == toks[k + 1];
        assert NoLongBrackets(rest);
      }
    }
  }

  /** A cut through an entity is a cut through a token with an ampersand in it. */
  lemma HalvesAmp(s: string, room: nat)
    requires Halves(s, room)
    ensures '&' in s
  {
    var p: nat :| p < room && p < |s| && room < p + EntityLen(s[p..]);
    EntityHead(s[p..]);
    assert s[p] == s[p..][0];
  }
}
