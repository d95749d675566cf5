/** Telegram HTML: tags, the stack of open tags, and how a piece of text reads. */
module TgMarkup {
  import opened Text

  // ---- one tag ------------------------------------------------------------

  datatype Tag = NotATag | OpenTag(name: string) | CloseTag(name: string)

  /** An open tag: its lower-case name and the full text that has to reopen it. */
  datatype Open = Open(name: string, tag: string)

  type Stack = seq<Open>

  const VOID_TAGS: set<string> := {"br", "hr", "img"}
  const PREFORMATTED: set<string> := {"pre", "code"}

  predicate IsAlpha(c: char) {
    'a' <= c <= 'z' || 'A' <= c <= 'Z'
  }

  predicate IsNameChar(c: char) {
    IsAlpha(c) || '0' <= c <= '9' || c == '-'
  }

  predicate IsAngle(c: char) {
    c == '<' || c == '>'
  }

  function ToLower(c: char): char {
    if 'A' <= c <= 'Z' then (c as int + 32) as char else c
  }

  function Lower(s: string): (r: string)
    ensures |r| == |s|
    ensures forall k :: 0 <= k < |s| ==> r[k] == ToLower(s[k])
  {
    seq(|s|, k requires 0 <= k < |s| => ToLower(s[k]))
  }

  /** Some characters of names, and of none, at the ends of their ranges, and the capitals there. */
  lemma NamesAre()
    ensures IsNameChar('a') && IsNameChar('z') && IsNameChar('A') && IsNameChar('Z') && IsNameChar('0') && IsNameChar('9')
    ensures IsNameChar('-') && !IsNameChar('_') && !IsNameChar('/') && !IsNameChar(':') && !IsNameChar('@') && !IsNameChar('[')
    ensures !IsNameChar('`') && !IsNameChar('{') && !IsNameChar(' ') && !IsNameChar('>') && !IsAlpha('0') && !IsAlpha('-')
    ensures ToLower('A') == 'a' && ToLower('Z') == 'z' && ToLower('a') == 'a' && ToLower('0') == '0' && ToLower('-') == '-'
  {
  }

  function SkipSpace(s: string, k: nat): (r: nat)
    requires k <= |s|
    ensures k <= r <= |s|
    ensures forall m :: k <= m < r ==> IsSpace(s[m])
    ensures r < |s| ==> !IsSpace(s[r])
    decreases |s| - k
  {
    if k < |s| && IsSpace(s[k]) then SkipSpace(s, k + 1) else k
  }

  function NameEnd(s: string, k: nat): (r: nat)
    requires k <= |s|
    ensures k <= r <= |s|
    ensures forall m :: k <= m < r ==> IsNameChar(s[m])
    ensures r < |s| ==> !IsNameChar(s[r])
    decreases |s| - k
  {
    if k < |s| && IsNameChar(s[k]) then NameEnd(s, k + 1) else k
  }

  /** The tag pattern matched at the start of a token. */
  function ParseTag(tok: string): Tag {
    if tok == "" || tok[0] != '<' then NotATag
    else
      var a := SkipSpace(tok, 1);
      var closing := a < |tok| && tok[a] == '/';
      var b := SkipSpace(tok, if closing then a + 1 else a);
      if b < |tok| && IsAlpha(tok[b]) then
        var name := Lower(tok[b..NameEnd(tok, b)]);
        if closing then CloseTag(name) else OpenTag(name)
      else NotATag
  }

  predicate IsTag(tok: string) {
    ParseTag(tok) != NotATag
  }

  // ---- the stack of open tags ---------------------------------------------

  /** Index of the innermost open tag called `name`, or -1. */
  function LastNamed(st: Stack, name: string): (k: int)
    ensures -1 <= k < |st|
    ensures k >= 0 ==> st[k].name == name
    ensures forall m :: k < m < |st| ==> st[m].name != name
  {
    if st == [] then -1
    else if st[|st| - 1].name == name then |st| - 1
    else LastNamed(st[..|st| - 1], name)
  }

  function Applied(st: Stack, tok: string): Stack {
    match ParseTag(tok)
    case NotATag => st
    case OpenTag(n) => if n in VOID_TAGS then st else st + [Open(n, tok)]
    case CloseTag(n) =>
      if n in VOID_TAGS then st
      else
        var k := LastNamed(st, n);
        if k < 0 then st else st[..k]
  }

  /** A tag: `<`, a `/` if it closes, a letter, and what letters, digits and hyphens follow, with blanks
      allowed before and behind the `/`; its name is read in lower case. */
  lemma TagIs(tok: string, before: string, closing: bool, behind: string, name: string, rest: string)
    requires tok == "<" + before + (if closing then "/" else "") + behind + name + rest
    requires AllSpace(before) && AllSpace(behind) && (!closing ==> behind == "")
    requires name != "" && IsAlpha(name[0]) && (forall k :: 0 <= k < |name| ==> IsNameChar(name[k]))
    requires rest != "" ==> !IsNameChar(rest[0])
    ensures ParseTag(tok) == if closing then CloseTag(Lower(name)) else OpenTag(Lower(name))
  {
    var mark := if closing then "/" else "";
    var a := 1 + |before|;
    var b := a + |mark| + |behind|;
    var e := b + |name|;
    assert tok[0] == '<';
    assert forall k :: 1 <= k < a ==> tok[k] == before[k - 1];
    assert tok[b] == name[0];
    LettersNoSpace(name[0]);
    SkipSpaceTo(tok, 1, a);
    if closing {
      assert tok[a] == '/';
      assert forall k :: a + 1 <= k < b ==> tok[k] == behind[k - a - 1];
      SkipSpaceTo(tok, a + 1, b);
    } else {
      SkipSpaceTo(tok, a, b);
    }
    assert forall k :: b <= k < e ==> tok[k] == name[k - b];
    assert e < |tok| ==> tok[e] == rest[0];
    NameEndsAt(tok, b, e);
    hide SkipSpace;
    hide NameEnd;
    hide Lower;
    hide IsSpace;
    hide IsNameChar;
    assert tok[b..e] == name;
  }

  lemma LettersNoSpace(c: char)
    requires IsAlpha(c)
    ensures !IsSpace(c) && c != '/' && !IsSpace('/')
  {
  }

  lemma {:induction false} SkipSpaceTo(s: string, k: nat, r: nat)
    requires k <= r <= |s| && (forall m :: k <= m < r ==> IsSpace(s[m])) && (r < |s| ==> !IsSpace(s[r]))
    ensures SkipSpace(s, k) == r
    decreases r - k
  {
    if k < r { SkipSpaceTo(s, k + 1, r); }
  }

  lemma {:induction false} NameEndsAt(s: string, k: nat, r: nat)
    requires k <= r <= |s| && (forall m :: k <= m < r ==> IsNameChar(s[m])) && (r < |s| ==> !IsNameChar(s[r]))
    ensures NameEnd(s, k) == r
    decreases r - k
  {
    if k < r { NameEndsAt(s, k + 1, r); }
  }

  /** What a token does to the open tags, k being the place of the innermost one of its name: an opening tag goes
      on top, a closing one takes that tag and all above it away, or nothing if there is none; br, hr and img
      never count. Code is pre and code. */
  lemma AppliedIs(st: Stack, tok: string, k: nat)
    ensures var tag, st' := ParseTag(tok), Applied(st, tok);
            && (tag.NotATag? ==> st' == st)
            && (!tag.NotATag? && tag.name in {"br", "hr", "img"} ==> st' == st)
            && (tag.OpenTag? && tag.name !in {"br", "hr", "img"} ==> st' == st + [Open(tag.name, tok)])
            && (tag.CloseTag? && tag.name !in {"br", "hr", "img"} ==>
                  && (k < |st| && st[k].name == tag.name && (forall m :: k < m < |st| ==> st[m].name != tag.name) ==> st' == st[..k])
                  && ((forall m :: 0 <= m < |st| ==> st[m].name != tag.name) ==> st' == st))
    ensures InPre(st) <==> exists m :: 0 <= m < |st| && (st[m].name == "pre" || st[m].name == "code")
  {
    hide ParseTag;
  }

  /** The stack update as a search: from the top of the stack down, for the tag being closed. */
  method ApplyTag(stack: Stack, tok: string) returns (r: Stack)
    ensures r == Applied(stack, tok)
  {
    r := stack;
    match ParseTag(tok)
    case NotATag =>
    case OpenTag(name) =>
      if name !in VOID_TAGS {
        r := stack + [Open(name, tok)];
      }
    case CloseTag(name) =>
      if name !in VOID_TAGS {
        var k := |stack|;
        while k > 0
          invariant 0 <= k <= |stack|
          invariant forall m :: k <= m < |stack| ==> stack[m].name != name
        {
          k := k - 1;
          if stack[k].name == name {
            assert k == LastNamed(stack, name);
            return stack[..k];
          }
        }
      }
  }

  function Openers(st: Stack): string {
    if st == [] then "" else Openers(st[..|st| - 1]) + st[|st| - 1].tag
  }

  function Closer(name: string): string {
    "</" + name + ">"
  }

  function Closers(st: Stack): string {
    if st == [] then "" else Closer(st[|st| - 1].name) + Closers(st[..|st| - 1])
  }

  predicate InPre(st: Stack) {
    exists k :: 0 <= k < |st| && st[k].name in PREFORMATTED
  }

  // ---- entities -------------------------------------------------------------

  predicate IsEntityChar(c: char) {
    c == '#' || IsAlpha(c) || '0' <= c <= '9'
  }

  function EntityEnd(s: string, k: nat): (r: nat)
    requires k <= |s|
    ensures k <= r <= |s|
    ensures forall m :: k <= m < r ==> IsEntityChar(s[m])
    ensures r < |s| ==> !IsEntityChar(s[r])
    decreases |s| - k
  {
    if k < |s| && IsEntityChar(s[k]) then EntityEnd(s, k + 1) else k
  }

  /** Length of the `&name;` at the start of s, 0 if there is none (1 to 12 characters between). */
  function EntityLen(s: string): (n: nat)
    ensures n <= |s| && n <= 14
    ensures n > 0 ==> '<' !in s[..n] && s[n - 1] == ';'
  {
    if s == "" || s[0] != '&' then 0
    else
      var k := EntityEnd(s, 1);
      if 2 <= k <= 13 && k < |s| && s[k] == ';' then k + 1 else 0
  }

  /** How much of a non-empty text is one sign: an entity or one character. */
  function SignLen(s: string): (n: nat)
    requires s != ""
    ensures 1 <= n <= |s|
  {
    if EntityLen(s) > 0 then EntityLen(s) else 1
  }

  lemma {:induction false} EntityEndAt(s: string, k: nat, r: nat)
    requires k <= r <= |s| && (forall m :: k <= m < r ==> IsEntityChar(s[m])) && (r < |s| ==> !IsEntityChar(s[r]))
    ensures EntityEnd(s, k) == r
    decreases r - k
  {
    if k < r { EntityEndAt(s, k + 1, r); }
  }

  /** An entity that ends within x is one whatever follows x. */
  lemma EntityInPrefix(x: string, y: string)
    ensures EntityLen(x) > 0 ==> EntityLen(x + y) == EntityLen(x)
    ensures EntityLen(x + y) <= |x| ==> EntityLen(x + y) == EntityLen(x)
  {
    var s := x + y;
    if x != "" && x[0] == '&' {
      var k := EntityEnd(s, 1);
      var r := if k < |x| then k else |x|;
      forall m | 1 <= m < r ensures IsEntityChar(x[m]) { assert x[m] == s[m]; }
      assert r < |x| ==> x[r] == s[r];
      EntityEndAt(x, 1, r);
    }
  }

  /** The end of s could be the beginning of an entity. */
  predicate AmpEnded(s: string) {
    exists k :: 0 <= k < |s| && s[k] == '&' && forall m :: k < m < |s| ==> IsEntityChar(s[m])
  }

  /** No entity begins in a and ends in b. */
  predicate NoEntityAcross(a: string, b: string) {
    forall k :: 0 <= k < |a| ==> EntityLen(a[k..] + b) <= |a[k..]|
  }

  lemma EntityHead(s: string)
    ensures EntityLen(s) > 0 ==> s[0] == '&' && forall m :: 1 <= m < EntityLen(s) - 1 ==> IsEntityChar(s[m])
  {
  }

  lemma AcrossMeans(a: string, b: string, k: nat)
    requires k < |a| && EntityLen(a[k..] + b) > |a[k..]|
    ensures AmpEnded(a) && b != "" && (IsEntityChar(b[0]) || b[0] == ';')
  {
    var x := a[k..];
    EntityHead(x + b);
    assert a[k] == (x + b)[0];
    forall m | k < m < |a| ensures IsEntityChar(a[m]) { assert a[m] == (x + b)[m - k]; }
    assert (x + b)[|x|] == b[0];
  }

  lemma NotAcross(a: string, b: string)
    requires !AmpEnded(a) || b == "" || (!IsEntityChar(b[0]) && b[0] != ';')
    ensures NoEntityAcross(a, b)
  {
    hide EntityLen;
    forall k | 0 <= k < |a| ensures EntityLen(a[k..] + b) <= |a[k..]| {
      if EntityLen(a[k..] + b) > |a[k..]| { AcrossMeans(a, b, k); }
    }
  }

  lemma AcrossSuffix(a: string, n: nat, b: string)
    requires n <= |a| && NoEntityAcross(a, b)
    ensures NoEntityAcross(a[n..], b)
  {
    forall k | 0 <= k < |a[n..]| ensures EntityLen(a[n..][k..] + b) <= |a[n..][k..]| {
      assert a[n..][k..] == a[n + k..];
    }
  }

  // ---- how a piece of text reads ------------------------------------------

  /** A sign shown to the user, with the tags open around it: a character, or an entity as one. */
  datatype Glyph = Glyph(sign: string, open: Stack)

  /** What reading a text yields: what it shows, what it leaves open, and whether every close tag
      in it closed the innermost open tag. */
  datatype Reading = Reading(shown: seq<Glyph>, open: Stack, nested: bool)

  function Then(a: Reading, b: Reading): Reading {
    Reading(a.shown + b.shown, b.open, a.nested && b.nested)
  }

  /** What text without tags shows. */
  function Glyphs(s: string, st: Stack): seq<Glyph>
    decreases |s|
  {
    if s == "" then [] else [Glyph(s[..SignLen(s)], st)] + Glyphs(s[SignLen(s)..], st)
  }

  function FirstAngle(s: string, k: nat): (r: nat)
    requires k <= |s|
    ensures k <= r <= |s|
    ensures forall m :: k <= m < r ==> !IsAngle(s[m])
    ensures r < |s| ==> IsAngle(s[r])
    decreases |s| - k
  {
    if k < |s| && !IsAngle(s[k]) then FirstAngle(s, k + 1) else k
  }

  /** Length of the `<...>` at the start of s, 0 if there is none. */
  function BracketLen(s: string): (n: nat)
    ensures n <= |s|
    ensures n > 0 ==> n >= 2 && s[0] == '<' && s[n - 1] == '>'
  {
    if s == "" || s[0] != '<' then 0
    else
      var k := FirstAngle(s, 1);
      if k < |s| && s[k] == '>' then k + 1 else 0
  }

  /** Does this close tag, if it is one, close the innermost open tag? */
  predicate ClosesTop(st: Stack, tok: string) {
    match ParseTag(tok)
    case CloseTag(n) => n in VOID_TAGS || (st != [] && st[|st| - 1].name == n)
    case _ => true
  }

  /** How much of a non-empty text the reader takes at once: a whole tag or one sign. */
  function StepLen(s: string): (n: nat)
    requires s != ""
    ensures 1 <= n <= |s|
  {
    var e := BracketLen(s);
    if e > 0 && IsTag(s[..e]) then e else SignLen(s)
  }

  function Step(s: string, st: Stack): Reading
    requires s != ""
  {
    var e := BracketLen(s);
    if e > 0 && IsTag(s[..e]) then Reading([], Applied(st, s[..e]), ClosesTop(st, s[..e]))
    else Reading([Glyph(s[..SignLen(s)], st)], st, true)
  }

  /** The reference reader, left to right. */
  function Read(s: string, st: Stack): Reading
    decreases |s|
  {
    if s == "" then Reading([], st, true)
    else Then(Step(s, st), Read(s[StepLen(s)..], Step(s, st).open))
  }

  lemma ThenAssoc(a: Reading, b: Reading, c: Reading)
    ensures Then(Then(a, b), c) == Then(a, Then(b, c))
  {
    assert (a.shown + b.shown) + c.shown == a.shown + (b.shown + c.shown);
  }

  // ---- reading is compositional -------------------------------------------

  /** The last angle bracket of s is a `<`: what follows could still turn it into a tag. */
  predicate OpenEnded(s: string) {
    exists k :: 0 <= k < |s| && s[k] == '<' && forall m :: k < m < |s| ==> !IsAngle(s[m])
  }

  /** No `>` comes before the first `<` of s. */
  predicate Shut(s: string) {
    var k := FirstAngle(s, 0);
    k < |s| ==> s[k] == '<'
  }

  lemma FirstAngleAt(s: string, k: nat, r: nat)
    requires k <= r <= |s|
    requires forall m :: k <= m < r ==> !IsAngle(s[m])
    requires r < |s| ==> IsAngle(s[r])
    ensures FirstAngle(s, k) == r
  {
  }

  lemma BracketLenConcat(a: string, b: string)
    requires a != ""
    requires OpenEnded(a) ==> Shut(b)
    ensures BracketLen(a + b) == BracketLen(a)
  {
    if a[0] == '<' {
      var k := FirstAngle(a, 1);
      if k < |a| {
        FirstAngleAt(a + b, 1, k);
      } else {
        assert OpenEnded(a);
        var m := FirstAngle(b, 0);
        forall q | 1 <= q < |a| + m ensures !IsAngle((a + b)[q]) {
          if q >= |a| { assert (a + b)[q] == b[q - |a|]; }
        }
        FirstAngleAt(a + b, 1, |a| + m);
      }
    }
  }

  lemma StepConcat(a: string, b: string, st: Stack)
    requires a != ""
    requires (OpenEnded(a) ==> Shut(b)) && NoEntityAcross(a, b)
    ensures StepLen(a + b) == StepLen(a) && Step(a + b, st) == Step(a, st)
  {
    hide ParseTag;
    hide Applied;
    hide ClosesTop;
    hide EntityLen;
    BracketLenConcat(a, b);
    assert (a + b)[..BracketLen(a)] == a[..BracketLen(a)];
    assert a[0..] == a;
    EntityInPrefix(a, b);
    assert (a + b)[..SignLen(a)] == a[..SignLen(a)];
  }

  lemma OpenEndedSuffix(a: string, n: nat)
    requires n <= |a| && OpenEnded(a[n..])
    ensures OpenEnded(a)
  {
    var t := a[n..];
    var k :| 0 <= k < |t| && t[k] == '<' && forall m :: k < m < |t| ==> !IsAngle(t[m]);
    forall m | k + n < m < |a| ensures !IsAngle(a[m]) { assert a[m] == t[m - n]; }
    assert a[k + n] == '<';
  }

  lemma ReadNothing(st: Stack)
    ensures Read("", st) == Reading([], st, true)
  {}

  lemma ReadOne(s: string, st: Stack)
    requires s != ""
    ensures Read(s, st) == Then(Step(s, st), Read(s[StepLen(s)..], Step(s, st).open))
  {}

  lemma {:induction false} ReadConcat(a: string, b: string, st: Stack)
    requires (OpenEnded(a) ==> Shut(b)) && NoEntityAcross(a, b)
    ensures Read(a + b, st) == Then(Read(a, st), Read(b, Read(a, st).open))
    decreases |a|
  {
    hide OpenEnded;
    hide Shut;
    hide Step;
    hide Read;
    hide NoEntityAcross;
    hide StepLen;
    if a == "" {
      assert a + b == b;
      ReadNothing(st);
      assert [] + Read(b, st).shown == Read(b, st).shown;
    } else {
      StepConcat(a, b, st);
      ReadOne(a, st);
      ReadOne(a + b, st);
      var n, head := StepLen(a), Step(a, st);
      assert (a + b)[n..] == a[n..] + b;
      if OpenEnded(a[n..]) { OpenEndedSuffix(a, n); }
      AcrossSuffix(a, n, b);
      ReadConcat(a[n..], b, head.open);
      ThenAssoc(head, Read(a[n..], head.open), Read(b, Read(a[n..], head.open).open));
    }
  }

  /** Text without a `<` shows itself and changes nothing. */
  lemma {:induction false} ReadPlain(s: string, st: Stack)
    requires '<' !in s
    ensures Read(s, st) == Reading(Glyphs(s, st), st, true)
    decreases |s|
  {
    hide EntityLen;
    if s != "" { ReadPlain(s[SignLen(s)..], st); }
  }

  // ---- closers and openers ------------------------------------------------

  /** `<...>` with no angle bracket inside. */
  predicate Bracketed(tok: string) {
    |tok| >= 2 && tok[0] == '<' && tok[|tok| - 1] == '>'
    && forall m :: 1 <= m < |tok| - 1 ==> !IsAngle(tok[m])
  }

  /** Every entry reopens itself: its text is the open tag of its (lower-case) name. */
  ghost predicate WfStack(st: Stack) {
    forall k :: 0 <= k < |st| ==> WfOpen(st[k])
  }

  ghost predicate WfOpen(o: Open) {
    && Bracketed(o.tag) && ParseTag(o.tag) == OpenTag(o.name)
    && o.name !in VOID_TAGS && ParseTag(Closer(o.name)) == CloseTag(o.name)
    && Bracketed(Closer(o.name))
  }

  lemma BracketRead(tok: string, st: Stack)
    requires Bracketed(tok) && IsTag(tok)
    ensures Read(tok, st) == Reading([], Applied(st, tok), ClosesTop(st, tok))
  {
    hide ParseTag;
    hide Applied;
    hide ClosesTop;
    FirstAngleAt(tok, 1, |tok| - 1);
    assert tok[..|tok|] == tok;
    assert tok[|tok|..] == "";
  }

  /** The name an open tag is read with. */
  lemma OpenTagName(tok: string) returns (b: nat, e: nat)
    requires ParseTag(tok).OpenTag?
    ensures 1 <= b < e <= |tok| && tok[0] == '<'
    ensures ParseTag(tok).name == Lower(tok[b..e])
    ensures IsAlpha(tok[b]) && forall k :: b <= k < e ==> IsNameChar(tok[k])
  {
    b := SkipSpace(tok, SkipSpace(tok, 1));
    e := NameEnd(tok, b);
  }

  lemma CloserOfName(n: string)
    requires n != "" && IsAlpha(n[0])
    requires forall k :: 0 <= k < |n| ==> IsNameChar(n[k]) && ToLower(n[k]) == n[k]
    ensures ParseTag(Closer(n)) == CloseTag(n)
    ensures Bracketed(Closer(n))
  {
    var c := Closer(n);
    assert forall k :: 0 <= k < |n| ==> c[k + 2] == n[k];
    assert c[0] == '<' && c[1] == '/' && c[|c| - 1] == '>';
    assert forall m :: 2 <= m < |c| - 1 ==> c[m] == n[m - 2];
    assert SkipSpace(c, 1) == 1;
    assert SkipSpace(c, 2) == 2 by { assert c[2] == n[0]; }
    NameEndAt(c, 2, |c| - 1);
    assert c[2..|c| - 1] == n;
    assert Lower(n) == n;
  }

  lemma CloserParses(tok: string)
    requires ParseTag(tok).OpenTag?
    ensures ParseTag(Closer(ParseTag(tok).name)) == CloseTag(ParseTag(tok).name)
    ensures Bracketed(Closer(ParseTag(tok).name))
  {
    hide ParseTag;
    var b, e := OpenTagName(tok);
    var raw := tok[b..e];
    assert forall k :: 0 <= k < |raw| ==> raw[k] == tok[b + k];
    CloserOfName(Lower(raw));
  }

  lemma NameEndAt(s: string, k: nat, r: nat)
    requires k <= r < |s|
    requires forall m :: k <= m < r ==> IsNameChar(s[m])
    requires !IsNameChar(s[r])
    ensures NameEnd(s, k) == r
  {
  }

  lemma AppliedWf(st: Stack, tok: string)
    requires WfStack(st)
    requires IsTag(tok) ==> Bracketed(tok)
    ensures WfStack(Applied(st, tok))
  {
    if ParseTag(tok).OpenTag? {
      CloserParses(tok);
    }
  }

  lemma ReadOpen(o: Open, st: Stack)
    requires WfOpen(o)
    ensures Read(o.tag, st) == Reading([], st + [o], true)
  {
    hide ParseTag;
    hide Read;
    BracketRead(o.tag, st);
    assert Open(o.name, o.tag) == o;
  }

  lemma {:induction false} ReadOpeners(st: Stack)
    requires WfStack(st)
    ensures Read(Openers(st), []) == Reading([], st, true)
    ensures !OpenEnded(Openers(st)) && !AmpEnded(Openers(st))
  {
    hide WfOpen;
    hide Read;
    if st != [] {
      var init, top := st[..|st| - 1], st[|st| - 1];
      assert WfOpen(top);
      ReadOpeners(init);
      NotAcross(Openers(init), top.tag);
      ReadConcat(Openers(init), top.tag, []);
      ReadOpen(top, init);
      assert init + [top] == st;
      OpenEndsInAngle(top);
      NotOpenEnded(Openers(st));
    } else {
      assert Read("", []) == Reading([], [], true) by { ReadEmpty([]); }
    }
  }

  lemma ReadEmpty(st: Stack)
    ensures Read("", st) == Reading([], st, true)
  {
  }

  lemma OpenEndsInAngle(o: Open)
    requires WfOpen(o)
    ensures o.tag != "" && o.tag[|o.tag| - 1] == '>'
  {
  }

  lemma NotOpenEnded(s: string)
    requires s != "" && s[|s| - 1] == '>'
    ensures !OpenEnded(s)
  {
  }

  lemma {:induction false} ReadClosers(st: Stack)
    requires WfStack(st)
    ensures Read(Closers(st), st) == Reading([], [], true)
    ensures Shut(Closers(st))
  {
    if st != [] {
      var init, top := st[..|st| - 1], st[|st| - 1];
      assert WfOpen(top);
      ReadClosers(init);
      NotOpenEnded(Closer(top.name));
      NotAcross(Closer(top.name), Closers(init));
      ReadConcat(Closer(top.name), Closers(init), st);
      BracketRead(Closer(top.name), st);
      assert LastNamed(st, top.name) == |st| - 1;
      FirstAngleAt(Closers(st), 0, 0);
    }
  }

  // ---- sizes ---------------------------------------------------------------

  /** A closer is at most a third longer than the tag it closes. */
  lemma {:induction false} ClosersLength(st: Stack)
    requires WfStack(st)
    ensures 3 * |Closers(st)| <= 4 * |Openers(st)|
  {
    if st != [] {
      var top := st[|st| - 1];
      assert WfOpen(top);
      ClosersLength(st[..|st| - 1]);
      TagLength(top.tag);
    }
  }

  /** `<`, the name and `>` all fit in a bracketed open tag. */
  lemma TagLength(tok: string)
    requires Bracketed(tok) && ParseTag(tok).OpenTag?
    ensures |tok| >= |ParseTag(tok).name| + 2 >= 3
  {
    hide ParseTag;
    var b, e := OpenTagName(tok);
    assert !IsNameChar(tok[|tok| - 1]);
  }

  lemma {:induction false} OpenersPrefix(st: Stack, k: nat)
    requires k <= |st|
    ensures |Openers(st[..k])| <= |Openers(st)|
    decreases |st|
  {
    if k < |st| {
      OpenersPrefix(st[..|st| - 1], k);
      assert st[..|st| - 1][..k] == st[..k];
    } else {
      assert st[..k] == st;
    }
  }
}
