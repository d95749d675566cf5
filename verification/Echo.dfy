/** Tool output that must reach the user: what the final answer does not show is appended to it. */
module Echo {
  import opened Text

  const FENCE: string := "```"

  /** The first place at or after k where sub stands in s, or -1. */
  function FindFrom(s: string, sub: string, k: nat): (r: int)
    ensures r == -1 || (k <= r && At(s, sub, r))
    ensures forall j: nat :: k <= j && At(s, sub, j) ==> 0 <= r <= j
    decreases |s| - k
  {
    if k + |sub| > |s| then -1 else if At(s, sub, k) then k else FindFrom(s, sub, k + 1)
  }

  /** What stands between the first two fences, if there are two. */
  function Body(out: string): string {
    var p := FindFrom(out, FENCE, 0);
    if p < 0 then out
    else
      var q := FindFrom(out, FENCE, p + |FENCE|);
      if q < 0 then out else out[p + |FENCE|..q]
  }

  function Inked(lines: seq<string>): seq<string> {
    if lines == [] then [] else (if AllSpace(lines[0]) then [] else [lines[0]]) + Inked(lines[1..])
  }

  /** max(lines, key=len): the first of the longest. */
  function Longest(lines: seq<string>): (l: string)
    requires lines != []
    ensures l in lines && forall k :: 0 <= k < |lines| ==> |lines[k]| <= |l|
  {
    if |lines| == 1 then lines[0]
    else
      var rest := Longest(lines[1..]);
      if |lines[0]| >= |rest| then lines[0] else rest
  }

  /** The most distinctive line of an output, or nothing. */
  function Probe(out: string): string {
    var lines := Inked(SplitLines(Body(out)));
    if lines == [] then "" else Strip(Longest(lines))
  }

  /** The outputs whose most distinctive line the answer does not hold. */
  function Extra(answer: string, echoed: seq<string>): seq<string> {
    if echoed == [] then []
    else
      var n := |echoed| - 1;
      var probe := Probe(echoed[n]);
      Extra(answer, echoed[..n]) + if probe != "" && !Has(answer, probe) then [Strip(echoed[n])] else []
  }

  function Unechoed(answer: string, echoed: seq<string>): string {
    var extra := Extra(answer, echoed);
    if extra == [] then answer else Strip(RStrip(answer) + "\n\n" + Join(extra, "\n\n"))
  }

  /** Of an output with a fenced body that body counts; of its lines those that are not blank, and of these the
      first of the longest, trimmed. */
  lemma BodyIs(out: string, a: string, b: string, c: string)
    requires out == a + "```" + b + "```" + c
    requires FindFrom(out, "```", 0) == |a| && FindFrom(out, "```", |a| + 3) == |a| + 3 + |b|
    ensures Body(out) == b
  {
    hide FindFrom;
    assert out == (a + "```") + b + ("```" + c);
  }

  lemma NoFence(out: string)
    requires !Has(out, "```")
    ensures Body(out) == out
  {
    NeverFound(out, "```");
  }

  lemma NeverFound(s: string, sub: string)
    requires !Has(s, sub)
    ensures FindFrom(s, sub, 0) == -1
  {
    var k := FindFrom(s, sub, 0);
    assert k >= 0 ==> At(s, sub, k);
  }

  lemma ProbeIs(out: string, lines: seq<string>, k: nat)
    requires lines == Inked(SplitLines(Body(out))) && k < |lines|
    requires forall j :: 0 <= j < |lines| ==> |lines[j]| <= |lines[k]| && (j < k ==> |lines[j]| < |lines[k]|)
    ensures Probe(out) == Strip(lines[k])
  {
    LongestIs(lines, k);
  }

  lemma {:induction false} LongestIs(lines: seq<string>, k: nat)
    requires k < |lines|
    requires forall j :: 0 <= j < |lines| ==> |lines[j]| <= |lines[k]| && (j < k ==> |lines[j]| < |lines[k]|)
    ensures Longest(lines) == lines[k]
    decreases |lines|
  {
    if |lines| > 1 && k > 0 { LongestIs(lines[1..], k - 1); }
  }

  /** The answer with one more output: nothing is added if the answer shows it, otherwise it is, trimmed and
      behind an empty line; and with none the answer is as it was. */
  lemma UnechoedIs(answer: string, echoed: seq<string>, out: string)
    ensures Unechoed(answer, []) == answer
    ensures Probe(out) == "" || Has(answer, Probe(out)) ==> Unechoed(answer, echoed + [out]) == Unechoed(answer, echoed)
    ensures Probe(out) != "" && !Has(answer, Probe(out)) ==>
              var before := if Extra(answer, echoed) == [] then "" else Join(Extra(answer, echoed), "\n\n") + "\n\n";
              Unechoed(answer, echoed + [out]) == Strip(RStrip(answer) + "\n\n" + (before + Strip(out)))
  {
    hide Probe;
    hide Strip;
    hide RStrip;
    assert (echoed + [out])[..|echoed|] == echoed;
    var extra := Extra(answer, echoed);
    assert [] + [Strip(out)] == [Strip(out)] && "" + Strip(out) == Strip(out);
    assert extra + [] == extra;
    if extra != [] { JoinSnoc(extra, "\n\n", Strip(out)); }
  }

  lemma {:induction false} JoinSnoc(parts: seq<string>, sep: string, x: string)
    requires parts != []
    ensures Join(parts + [x], sep) == Join(parts, sep) + sep + x
    decreases |parts|
  {
    var all := parts + [x];
    assert all[1..] == parts[1..] + [x];
    if |parts| > 1 {
      JoinSnoc(parts[1..], sep, x);
      var p := parts[0] + sep;
      assert p + (Join(parts[1..], sep) + sep + x) == p + Join(parts[1..], sep) + sep + x;
    } else {
      assert all[1..] == [x];
    }
  }

  method WithUnechoed(answer: string, echoed: seq<string>) returns (r: string)
    ensures r == Unechoed(answer, echoed)
  {
    hide Probe;
    var extra: seq<string> := [];
    for i := 0 to |echoed|
      invariant extra == Extra(answer, echoed[..i])
    {
      var out := echoed[i];
      assert echoed[..i + 1][..i] == echoed[..i];
      var probe := Probe(out);
      if probe != "" && !Has(answer, probe) {
        extra := extra + [Strip(out)];
      }
    }
    assert echoed[..|echoed|] == echoed;
    if extra == [] {
      return answer;
    }
    return Strip(RStrip(answer) + "\n\n" + Join(extra, "\n\n"));
  }

  // ---- it reaches the user ------------------------------------------------------------------

  predicate Trimmed(s: string) {
    s != "" && !IsSpace(s[0]) && !IsSpace(s[|s| - 1])
  }

  lemma HasTrans(s: string, t: string, u: string)
    requires Has(s, t) && Has(t, u)
    ensures Has(s, u)
  {
    var k :| 0 <= k <= |s| && At(s, t, k);
    var m :| 0 <= m <= |t| && At(t, u, m);
    var here := s[k..k + |t|];
    var part := here[m..m + |u|];
    assert forall i :: 0 <= i < |u| ==> part[i] == s[k + m + i];
    assert s[k + m..k + m + |u|] == part;
    assert At(s, u, k + m);
  }

  lemma HasPart(a: string, t: string, b: string)
    ensures Has(a + t + b, t)
  {
    assert At(a + t + b, t, |a|);
  }

  /** Stripping whitespace loses nothing that is trimmed itself. */
  lemma HasStripped(s: string, t: string)
    requires Has(s, t) && Trimmed(t)
    ensures Has(RStrip(s), t) && Has(Strip(s), t)
  {
    HasRStripped(s, t);
    HasLStripped(RStrip(s), t);
  }

  lemma HasRStripped(s: string, t: string)
    requires Has(s, t) && Trimmed(t)
    ensures Has(RStrip(s), t)
  {
    hide IsSpace;
    hide RStrip;
    var r := RStrip(s);
    var k :| 0 <= k <= |s| && At(s, t, k);
    assert t[|t| - 1] == s[k + |t| - 1];
    assert forall j :: |r| <= j < |s| ==> s[j] == s[|r|..][j - |r|];
    assert k + |t| <= |r|;
    assert s[..|r|][k..k + |t|] == s[k..k + |t|];
    assert At(r, t, k);
  }

  lemma HasLStripped(s: string, t: string)
    requires Has(s, t) && Trimmed(t)
    ensures Has(LStrip(s), t)
  {
    hide IsSpace;
    hide LStrip;
    var l := LStrip(s);
    var n := |s| - |l|;
    var k :| 0 <= k <= |s| && At(s, t, k);
    assert t[0] == s[k];
    assert forall j :: 0 <= j < n ==> s[j] == s[..n][j];
    assert n <= k;
    assert s[n..][k - n..k - n + |t|] == s[k..k + |t|];
    assert At(l, t, k - n);
  }

  lemma {:induction false} LineIn(s: string, k: nat)
    requires k < |SplitLines(s)|
    ensures Has(s, SplitLines(s)[k])
    decreases |s|
  {
    hide FirstBreak;
    hide IsBreak;
    var n := FirstBreak(s);
    if k == 0 {
      assert s == [] + s[..n] + s[n..];
      HasPart([], s[..n], s[n..]);
      assert s[..|s|] == s;
    } else {
      assert SplitLines(s)[k] == SplitLines(s[n + 1..])[k - 1];
      LineIn(s[n + 1..], k - 1);
      assert s == s[..n + 1] + s[n + 1..] + [];
      HasPart(s[..n + 1], s[n + 1..], []);
      HasTrans(s, s[n + 1..], SplitLines(s)[k]);
    }
  }

  lemma {:induction false} InkedFrom(lines: seq<string>, l: string)
    requires l in Inked(lines)
    ensures l in lines && !AllSpace(l)
    decreases |lines|
  {
    if !(l == lines[0] && !AllSpace(lines[0])) { InkedFrom(lines[1..], l); }
  }

  lemma BodyIn(out: string)
    ensures Has(out, Body(out))
  {
    var p := FindFrom(out, FENCE, 0);
    assert At(out, out, 0) by { assert out[0..|out|] == out; }
    if p >= 0 {
      var q := FindFrom(out, FENCE, p + |FENCE|);
      if q >= 0 {
        var b := out[p + |FENCE|..q];
        assert out == out[..p + |FENCE|] + b + out[q..];
        HasPart(out[..p + |FENCE|], b, out[q..]);
      }
    }
  }

  lemma StripTrims(s: string)
    requires !AllSpace(s)
    ensures Trimmed(Strip(s)) && Has(s, Strip(s))
  {
    hide RStrip;
    hide LStrip;
    var r := RStrip(s);
    RStripEmpty(s);
    var l := LStrip(r);
    assert !IsSpace(r[|r| - 1]);
    LStripEmpty(r);
    assert l[|l| - 1] == r[|r| - 1];
    assert s == s[..|r| - |l|] + l + s[|r|..];
    HasPart(s[..|r| - |l|], l, s[|r|..]);
  }

  /** The line looked for is one of the output's own, trimmed. */
  lemma ProbeIn(out: string)
    requires Probe(out) != ""
    ensures Trimmed(Probe(out)) && Has(Strip(out), Probe(out))
  {
    hide Body;
    hide SplitLines;
    var lines := SplitLines(Body(out));
    var l := Longest(Inked(lines));
    InkedFrom(lines, l);
    var k :| 0 <= k < |lines| && lines[k] == l;
    LineIn(Body(out), k);
    BodyIn(out);
    StripTrims(l);
    HasTrans(out, Body(out), l);
    HasTrans(out, l, Strip(l));
    HasStripped(out, Strip(l));
  }

  lemma {:induction false} JoinHas(parts: seq<string>, k: nat, sep: string)
    requires k < |parts|
    ensures Has(Join(parts, sep), parts[k])
    decreases |parts|
  {
    var j := Join(parts, sep);
    if |parts| == 1 {
      assert j == [] + parts[0] + [];
      HasPart([], parts[0], []);
    } else if k == 0 {
      assert j == [] + parts[0] + (sep + Join(parts[1..], sep));
      HasPart([], parts[0], sep + Join(parts[1..], sep));
    } else {
      JoinHas(parts[1..], k - 1, sep);
      assert j == (parts[0] + sep) + Join(parts[1..], sep) + [];
      HasPart(parts[0] + sep, Join(parts[1..], sep), []);
      HasTrans(j, Join(parts[1..], sep), parts[k]);
    }
  }

  lemma {:induction false} ExtraHas(answer: string, echoed: seq<string>, k: nat) returns (m: nat)
    requires k < |echoed| && Probe(echoed[k]) != "" && !Has(answer, Probe(echoed[k]))
    ensures m < |Extra(answer, echoed)| && Extra(answer, echoed)[m] == Strip(echoed[k])
    decreases |echoed|
  {
    hide Probe;
    hide Strip;
    hide Has;
    var n := |echoed| - 1;
    if k == n {
      m := |Extra(answer, echoed[..n])|;
    } else {
      m := ExtraHas(answer, echoed[..n], k);
    }
  }

  /** The final answer shows the most distinctive line of every output that must reach the user; and an
      answer that already shows them all is left alone. */
  lemma EchoReaches(answer: string, echoed: seq<string>, k: nat)
    requires k < |echoed| && Probe(echoed[k]) != ""
    ensures Has(Unechoed(answer, echoed), Probe(echoed[k]))
    ensures (forall i :: 0 <= i < |echoed| ==> Probe(echoed[i]) == "" || Has(answer, Probe(echoed[i])))
            ==> Unechoed(answer, echoed) == answer
  {
    hide Probe;
    hide Strip;
    hide RStrip;
    hide Join;
    var probe, extra := Probe(echoed[k]), Extra(answer, echoed);
    ProbeIn(echoed[k]);
    var all := RStrip(answer) + "\n\n" + Join(extra, "\n\n");
    NoExtra(answer, echoed);
    if extra != [] {
      if Has(answer, probe) {
        HasStripped(answer, probe);
        assert all == [] + RStrip(answer) + ("\n\n" + Join(extra, "\n\n"));
        HasPart([], RStrip(answer), "\n\n" + Join(extra, "\n\n"));
        HasTrans(all, RStrip(answer), probe);
      } else {
        var m := ExtraHas(answer, echoed, k);
        JoinHas(extra, m, "\n\n");
        assert all == (RStrip(answer) + "\n\n") + Join(extra, "\n\n") + [];
        HasPart(RStrip(answer) + "\n\n", Join(extra, "\n\n"), []);
        HasTrans(all, Join(extra, "\n\n"), Strip(echoed[k]));
        HasTrans(all, Strip(echoed[k]), probe);
      }
      HasStripped(all, probe);
    } else if !Has(answer, probe) {
      var _ := ExtraHas(answer, echoed, k);
    }
  }

  lemma {:induction false} NoExtra(answer: string, echoed: seq<string>)
    ensures (forall i :: 0 <= i < |echoed| ==> Probe(echoed[i]) == "" || Has(answer, Probe(echoed[i])))
            ==> Extra(answer, echoed) == []
    decreases |echoed|
  {
    hide Probe;
    if echoed != [] { NoExtra(answer, echoed[..|echoed| - 1]); }
  }
}
