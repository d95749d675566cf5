/** Strings as the Python code sees them: sequences of code points. */
module Text {

  datatype Option<+T> = None | Some(value: T)

  /** What `str.isspace` and `\s` accept (CPython uses one table for both). */
  predicate IsSpace(c: char) {
    var n := c as int;
    || 9 <= n <= 13 || 28 <= n <= 32
    || n in {0x85, 0xA0, 0x1680, 0x2028, 0x2029, 0x202F, 0x205F, 0x3000}
    || 0x2000 <= n <= 0x200A
  }

  /** All of them: tabs to carriage returns, the four separators and the blank, and the blanks of Unicode. */
  lemma SpacesAre(n: int)
    requires 0 <= n < 0xD800
    ensures IsSpace(n as char) <==>
            n in [9, 10, 11, 12, 13, 28, 29, 30, 31, 32, 0x85, 0xA0, 0x1680, 0x2000, 0x2001, 0x2002, 0x2003, 0x2004, 0x2005,
                  0x2006, 0x2007, 0x2008, 0x2009, 0x200A, 0x2028, 0x2029, 0x202F, 0x205F, 0x3000]
  {
  }

  predicate AllSpace(s: string) {
    forall k :: 0 <= k < |s| ==> IsSpace(s[k])
  }

  /** Does `sub` stand at position k of s? */
  predicate At(s: string, sub: string, k: nat) {
    k + |sub| <= |s| && s[k..k + |sub|] == sub
  }

  /** `sub in s` */
  predicate Has(s: string, sub: string) {
    exists k :: 0 <= k <= |s| && At(s, sub, k)
  }

  /** "".join(parts) */
  function Flatten(parts: seq<string>): string {
    if parts == [] then "" else parts[0] + Flatten(parts[1..])
  }

  lemma {:induction false} FlattenConcat(a: seq<string>, b: seq<string>)
    ensures Flatten(a + b) == Flatten(a) + Flatten(b)
  {
    if a == [] {
      assert a + b == b;
    } else {
      FlattenConcat(a[1..], b);
      assert (a + b)[1..] == a[1..] + b;
      var x, y, z := a[0], Flatten(a[1..]), Flatten(b);
      assert x + (y + z) == (x + y) + z;
    }
  }

  lemma FlattenSnoc(a: seq<string>, x: string)
    ensures Flatten(a + [x]) == Flatten(a) + x
  {
    FlattenConcat(a, [x]);
    assert Flatten([x]) == x + Flatten([]);
  }

  /** Cutting a list of parts at k cuts its text there too. */
  lemma FlattenSplit(parts: seq<string>, k: nat)
    requires k <= |parts|
    ensures Flatten(parts) == Flatten(parts[..k]) + Flatten(parts[k..])
  {
    assert parts == parts[..k] + parts[k..];
    FlattenConcat(parts[..k], parts[k..]);
  }

  // ---- strip and join -------------------------------------------------------------

  function RStrip(s: string): (r: string)
    ensures r <= s && AllSpace(s[|r|..]) && (r == "" || !IsSpace(r[|r| - 1]))
  {
    if s != "" && IsSpace(s[|s| - 1]) then RStrip(s[..|s| - 1]) else s
  }

  function LStrip(s: string): (r: string)
    ensures |r| <= |s| && r == s[|s| - |r|..] && AllSpace(s[..|s| - |r|]) && (r == "" || !IsSpace(r[0]))
  {
    if s != "" && IsSpace(s[0]) then LStrip(s[1..]) else s
  }

  function Strip(s: string): string {
    LStrip(RStrip(s))
  }

  lemma StripsToItself(s: string)
    requires s != "" && !IsSpace(s[0]) && !IsSpace(s[|s| - 1])
    ensures Strip(s) == s
  {}

  lemma RStripEmpty(s: string)
    ensures RStrip(s) == "" ==> AllSpace(s)
  {
    assert s[0..] == s;
  }

  lemma LStripEmpty(s: string)
    ensures LStrip(s) == "" ==> AllSpace(s)
  {
    assert s[..|s|] == s;
  }

  /** sep.join(parts) */
  function Join(parts: seq<string>, sep: string): string {
    if parts == [] then ""
    else if |parts| == 1 then parts[0]
    else parts[0] + sep + Join(parts[1..], sep)
  }

  /** The characters that are not whitespace. */
  function Ink(s: string): string {
    if s == "" then "" else (if IsSpace(s[0]) then "" else [s[0]]) + Ink(s[1..])
  }

  lemma {:induction false} InkConcat(a: string, b: string)
    ensures Ink(a + b) == Ink(a) + Ink(b)
    decreases |a|
  {
    hide IsSpace;
    if a == "" {
      assert a + b == b;
    } else {
      InkConcat(a[1..], b);
      assert (a + b)[1..] == a[1..] + b;
      var x := if IsSpace(a[0]) then "" else [a[0]];
      assert x + (Ink(a[1..]) + Ink(b)) == (x + Ink(a[1..])) + Ink(b);
    }
  }

  lemma {:induction false} InkOfSpace(s: string)
    requires AllSpace(s)
    ensures Ink(s) == ""
    decreases |s|
  {
    if s != "" { InkOfSpace(s[1..]); }
  }

  lemma InkRStripped(s: string)
    ensures Ink(RStrip(s)) == Ink(s)
  {
    hide RStrip;
    hide Ink;
    hide AllSpace;
    var r := RStrip(s);
    assert s == r + s[|r|..];
    InkConcat(r, s[|r|..]);
    InkOfSpace(s[|r|..]);
  }

  lemma InkLStripped(s: string)
    ensures Ink(LStrip(s)) == Ink(s)
  {
    hide LStrip;
    hide Ink;
    hide AllSpace;
    var l := LStrip(s);
    assert s == s[..|s| - |l|] + l;
    InkConcat(s[..|s| - |l|], l);
    InkOfSpace(s[..|s| - |l|]);
  }

  /** s.split(sep), for a separator of one character */
  function Split(s: string, sep: char): (parts: seq<string>)
    ensures parts != []
  {
    if s == "" then [""]
    else
      var rest := Split(s[1..], sep);
      if s[0] == sep then [""] + rest else [[s[0]] + rest[0]] + rest[1..]
  }

  /** [p for p in parts if p] */
  function Filled(parts: seq<string>): seq<string> {
    if parts == [] then [] else (if parts[0] == "" then [] else [parts[0]]) + Filled(parts[1..])
  }

  lemma {:induction false} FilledConcat(a: seq<string>, b: seq<string>)
    ensures Filled(a + b) == Filled(a) + Filled(b)
    decreases |a|
  {
    if a == [] {
      assert a + b == b;
    } else {
      FilledConcat(a[1..], b);
      assert (a + b)[1..] == a[1..] + b;
      var x := if a[0] == "" then [] else [a[0]];
      assert x + (Filled(a[1..]) + Filled(b)) == (x + Filled(a[1..])) + Filled(b);
    }
  }

  // ---- lines ---------------------------------------------------------------------

  /** What `str.splitlines` breaks at. (A carriage return with its line feed counts twice here, which
      adds an empty line; reading a file turns the two into one line feed.) */
  predicate IsBreak(c: char) {
    (c as int) in {0x0A, 0x0B, 0x0C, 0x0D, 0x1C, 0x1D, 0x1E, 0x85, 0x2028, 0x2029}
  }

  predicate OneLine(s: string) {
    forall k :: 0 <= k < |s| ==> !IsBreak(s[k])
  }

  function FirstBreak(s: string): (k: nat)
    ensures k <= |s| && (k < |s| ==> IsBreak(s[k])) && forall j :: 0 <= j < k ==> !IsBreak(s[j])
  {
    if s == "" || IsBreak(s[0]) then 0 else 1 + FirstBreak(s[1..])
  }

  /** text.splitlines() */
  function SplitLines(text: string): (lines: seq<string>)
    ensures forall k :: 0 <= k < |lines| ==> OneLine(lines[k])
    decreases |text|
  {
    if text == "" then []
    else
      var k := FirstBreak(text);
      if k == |text| then [text] else [text[..k]] + SplitLines(text[k + 1..])
  }
}
