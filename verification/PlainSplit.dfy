/** Breaking a long plain answer into pieces at paragraph, line or word boundaries. */
module PlainSplit {
  import opened Text

  /** s.rfind(sub), for a sub that is not empty */
  function RFind(s: string, sub: string): (k: int)
    requires sub != ""
    ensures -1 <= k && (k >= 0 ==> At(s, sub, k))
    ensures forall j: nat :: At(s, sub, j) ==> j <= k
  {
    RFindBelow(s, sub, |s|)
  }

  function RFindBelow(s: string, sub: string, top: nat): (k: int)
    requires sub != "" && top <= |s|
    ensures -1 <= k < top && (k >= 0 ==> At(s, sub, k))
    ensures forall j: nat :: At(s, sub, j) && j < top ==> j <= k
  {
    if top == 0 then -1 else if At(s, sub, top - 1) then top - 1 else RFindBelow(s, sub, top - 1)
  }

  /** Where a window is cut: at a paragraph or line break in its second half; failing these at the last
      blank, wherever it stands; and failing that at the end. */
  function CutAt(window: string): int {
    var n := |window|;
    var para, line, blank := RFind(window, "\n\n"), RFind(window, "\n"), RFind(window, " ");
    if 2 * para >= n then para else if 2 * line >= n then line else if blank > 0 then blank else n
  }

  /** A word is cut exactly when the window has no blank behind its first character and no line break
      in its second half; otherwise the cut is at a blank or a line break. */
  lemma HardCut(window: string)
    requires window != ""
    ensures var k := CutAt(window);
            && 0 < k <= |window|
            && (k == |window| <==>
                 forall j: nat :: j < |window| ==> (window[j] == ' ' ==> j == 0) && (window[j] == '\n' ==> 2 * j < |window|))
            && (k < |window| ==> window[k] == '\n' || window[k] == ' ')
  {
    var n := |window|;
    forall j: nat | j < n ensures (window[j] == ' ' ==> At(window, " ", j)) && (window[j] == '\n' ==> At(window, "\n", j)) {
      assert window[j..j + 1] == [window[j]];
    }
    var para := RFind(window, "\n\n");
    if para >= 0 { assert window[para] == window[para..para + 2][0]; }
    var line := RFind(window, "\n");
    if line >= 0 { assert window[line] == window[line..line + 1][0]; }
    var blank := RFind(window, " ");
    if blank >= 0 { assert window[blank] == window[blank..blank + 1][0]; }
  }

  /** Which break is taken: the last paragraph break, if it is in the second half of the window; else the last
      line break, if it is; else the last blank behind the first character. */
  lemma CutTakes(window: string)
    ensures var k, n := CutAt(window), |window|;
            if exists j: nat :: 2 * j >= n && At(window, "\n\n", j) then
              0 <= k && 2 * k >= n && At(window, "\n\n", k) && forall j: nat :: j > k ==> !At(window, "\n\n", j)
            else if exists j: nat :: j < n && 2 * j >= n && window[j] == '\n' then
              0 <= k < n && 2 * k >= n && window[k] == '\n' && forall j :: k < j < n ==> window[j] != '\n'
            else if exists j: nat :: 0 < j < n && window[j] == ' ' then
              0 < k < n && window[k] == ' ' && forall j :: k < j < n ==> window[j] != ' '
            else k == n
  {
    var n := |window|;
    forall j: nat | j < n ensures (window[j] == ' ' <==> At(window, " ", j)) && (window[j] == '\n' <==> At(window, "\n", j)) {
      assert window[j..j + 1] == [window[j]];
    }
  }

  /** So a line break in the first half does not save a word: here there is one right at its start. */
  lemma EarlyBreakIgnored(word: string)
    requires |word| >= 3 && ' ' !in word && '\n' !in word
    ensures CutAt("a\n" + word) == |word| + 2
  {
    var window := "a\n" + word;
    HardCut(window);
    forall j: nat | j < |window| ensures window[j] != ' ' && (window[j] == '\n' ==> j == 1) {
      if j >= 2 { assert window[j] == word[j - 2]; }
    }
  }

  /** The pieces of a text that is still to be sent. */
  function Pieces(remaining: string, limit: nat): seq<string>
    requires 0 < limit
    decreases |remaining|
  {
    if |remaining| <= limit then (if AllSpace(remaining) then [] else [remaining])
    else
      var cut := CutAt(remaining[..limit]);
      assert 0 < cut <= limit by { HardCut(remaining[..limit]); }
      [RStrip(remaining[..cut])] + Pieces(LStrip(remaining[cut..]), limit)
  }

  const NO_ANSWER: string := "(no answer)"

  method ChooseCut(window: string) returns (cut: nat)
    requires window != ""
    ensures cut == CutAt(window)
  {
    var limit, k := |window|, RFind(window, "\n\n");
    if 2 * k < limit {
      k := RFind(window, "\n");
    }
    if 2 * k < limit {
      k := RFind(window, " ");
    }
    cut := if k <= 0 then limit else k;
  }

  method SplitPlain(text': string, limit: nat) returns (out: seq<string>)
    requires 0 < limit
    ensures forall k :: 0 <= k < |out| ==> |out[k]| <= limit
    ensures Ink(Flatten(out)) == Ink(if text' == "" then "(no answer)" else text')
    ensures forall k :: 1 <= k < |out| ==> Starts(out[k])
    ensures var text := if text' == "" then "(no answer)" else text';
            out == if |text| <= limit then [text] else Pieces(text, limit)
  {
    hide Ink;
    hide RStrip;
    hide LStrip;
    hide Pieces;
    hide AllSpace;
    hide CutAt;
    var text := if text' == "" then NO_ANSWER else text';
    if |text| <= limit {
      assert Flatten([text]) == text + Flatten([]) == text;
      return [text];
    }
    out := [];
    var remaining := text;
    while |remaining| > limit
      invariant out + Pieces(remaining, limit) == Pieces(text, limit)
      decreases |remaining|
    {
      var window := remaining[..limit];
      var cut := ChooseCut(window);
      PiecesLong(remaining, limit);
      var piece, rest := RStrip(remaining[..cut]), LStrip(remaining[cut..]);
      assert out + ([piece] + Pieces(rest, limit)) == (out + [piece]) + Pieces(rest, limit);
      out := out + [piece];
      remaining := rest;
    }
    PiecesShort(remaining, limit);
    if !AllSpace(remaining) {
      out := out + [remaining];
    } else {
      assert out + [] == out;
    }
    assert out == Pieces(text, limit);
    PiecesKeep(text, limit);
  }

  lemma PiecesShort(remaining: string, limit: nat)
    requires 0 < limit && |remaining| <= limit
    ensures Pieces(remaining, limit) == if AllSpace(remaining) then [] else [remaining]
  {}

  lemma PiecesLong(remaining: string, limit: nat)
    requires 0 < limit < |remaining|
    ensures var cut := CutAt(remaining[..limit]);
            && 0 < cut <= limit
            && Pieces(remaining, limit) == [RStrip(remaining[..cut])] + Pieces(LStrip(remaining[cut..]), limit)
            && |LStrip(remaining[cut..])| < |remaining|
  {
    HardCut(remaining[..limit]);
  }

  predicate Starts(piece: string) {
    piece != "" && !IsSpace(piece[0])
  }

  /** No piece is too long, none but the first is empty or starts with whitespace, and nothing visible
      is lost. */
  lemma {:induction false} PiecesKeep(text: string, limit: nat)
    requires 0 < limit
    ensures var out := Pieces(text, limit);
            && (forall k :: 0 <= k < |out| ==> |out[k]| <= limit)
            && (forall k :: 0 <= k < |out| && (k >= 1 || Starts(text)) ==> Starts(out[k]))
            && Ink(Flatten(out)) == Ink(text)
    decreases |text|
  {
    hide Ink;
    hide RStrip;
    hide LStrip;
    hide Pieces;
    if |text| <= limit {
      PiecesShort(text, limit);
      if AllSpace(text) { InkOfSpace(text); } else { assert Flatten([text]) == text + Flatten([]) == text; }
      InkOfSpace("");
    } else {
      PiecesLong(text, limit);
      var cut := CutAt(text[..limit]);
      var piece, rest := RStrip(text[..cut]), LStrip(text[cut..]);
      var more := Pieces(rest, limit);
      PiecesKeep(rest, limit);
      InkOfCut("", text, cut);
      assert "" + text == text && "" + piece + rest == piece + rest;
      InkConcat(piece, rest);
      InkConcat(piece, Flatten(more));
      assert ([piece] + more)[0] == piece && ([piece] + more)[1..] == more;
      if rest == "" { PiecesShort(rest, limit); }
      if Starts(text) { PieceStarts(text, cut); }
    }
  }

  lemma InkOfCut(done: string, remaining: string, cut: nat)
    requires cut <= |remaining|
    ensures Ink(done + RStrip(remaining[..cut]) + LStrip(remaining[cut..])) == Ink(done + remaining)
  {
    hide Ink;
    hide RStrip;
    hide LStrip;
    var piece, rest := RStrip(remaining[..cut]), LStrip(remaining[cut..]);
    InkRStripped(remaining[..cut]);
    InkLStripped(remaining[cut..]);
    InkConcat(done + piece, rest);
    InkConcat(done, piece);
    InkConcat(done, remaining);
    InkConcat(remaining[..cut], remaining[cut..]);
    assert remaining[..cut] + remaining[cut..] == remaining;
    assert Ink(done) + (Ink(piece) + Ink(rest)) == (Ink(done) + Ink(piece)) + Ink(rest);
  }

  /** A piece that starts with something visible stays so when its end is stripped. */
  lemma PieceStarts(remaining: string, cut: nat)
    requires 0 < cut <= |remaining| && Starts(remaining)
    ensures Starts(RStrip(remaining[..cut]))
  {
    var s := remaining[..cut];
    var r := RStrip(s);
    assert !AllSpace(s) by { assert s[0] == remaining[0]; }
    RStripEmpty(s);
  }
}
