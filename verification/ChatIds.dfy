/** The list of allowed chat ids, as text in the .env file and back. */
module ChatIds {
  import opened Text

  predicate IsDigit(c: char) {
    '0' <= c <= '9'
  }

  function DigitChar(d: nat): (c: char)
    requires d < 10
    ensures IsDigit(c) && c as int - '0' as int == d
  {
    ('0' as int + d) as char
  }

  /** str(n) */
  function NatText(n: nat): (s: string)
    ensures s != "" && forall k :: 0 <= k < |s| ==> IsDigit(s[k])
  {
    if n < 10 then [DigitChar(n)] else NatText(n / 10) + [DigitChar(n % 10)]
  }

  function IntText(n: int): string {
    if n < 0 then "-" + NatText(-n) else NatText(n)
  }

  function DigitsValue(s: string): Option<int> {
    if s == "" then None
    else
      var n := |s| - 1;
      if !IsDigit(s[n]) then None
      else
        var d := s[n] as int - '0' as int;
        if n == 0 then Some(d)
        else match DigitsValue(s[..n]) case None => None case Some(v) => Some(10 * v + d)
  }

  /** int(s), for a sign and decimal digits */
  function ParseInt(s: string): Option<int> {
    if s != "" && (s[0] == '-' || s[0] == '+')
    then match DigitsValue(s[1..]) case None => None case Some(v) => Some(if s[0] == '-' then -v else v)
    else match DigitsValue(s) case None => None case Some(v) => Some(v)
  }

  /** The ids of the parts that are not blank; no list at all if one of them is not a number. */
  function ParseParts(parts: seq<string>): Option<seq<int>> {
    if parts == [] then Some([])
    else if Strip(parts[0]) == "" then ParseParts(parts[1..])
    else match ParseInt(Strip(parts[0]))
      case None => None
      case Some(n) => match ParseParts(parts[1..]) case None => None case Some(ns) => Some([n] + ns)
  }

  /** A list of numbers, with blanks around them and empty places in between, is read if all of them are numbers,
      and not at all otherwise; blank places count for nothing. */
  lemma {:induction false} ListReads(parts: seq<string>)
    ensures ParseParts(parts).Some? <==>
            forall k :: 0 <= k < |parts| ==> AllSpace(parts[k]) || ParseInt(Strip(parts[k])).Some?
    ensures (forall k :: 0 <= k < |parts| ==> AllSpace(parts[k])) ==> ParseParts(parts) == Some([])
    ensures ParseParts(parts).Some? ==> forall n :: n in ParseParts(parts).value <==>
            exists k :: 0 <= k < |parts| && !AllSpace(parts[k]) && ParseInt(Strip(parts[k])) == Some(n)
    decreases |parts|
  {
    hide Strip;
    hide ParseInt;
    hide AllSpace;
    if parts != [] {
      StripEmpty(parts[0]);
      ListReads(parts[1..]);
      assert forall k :: 1 <= k < |parts| ==> parts[k] == parts[1..][k - 1];
    }
  }

  lemma StripEmpty(s: string)
    ensures Strip(s) == "" <==> AllSpace(s)
  {
    RStripEmpty(s);
    LStripEmpty(RStrip(s));
    if AllSpace(s) { assert RStrip(s) == ""; }
    assert LStrip("") == "";
  }

  function ParseIds(v: string): Option<seq<int>> {
    if v == "" then Some([]) else ParseParts(Split(v, ','))
  }

  function Texts(ids: seq<int>): seq<string> {
    seq(|ids|, k requires 0 <= k < |ids| => IntText(ids[k]))
  }

  function PrintIds(ids: seq<int>): string {
    Join(Texts(ids), ",")
  }

  lemma {:induction false} NatReads(n: nat)
    ensures DigitsValue(NatText(n)) == Some(n)
    decreases n
  {
    var s := NatText(n);
    if n >= 10 {
      NatReads(n / 10);
      assert s[..|s| - 1] == NatText(n / 10);
    }
  }

  /** What is printed for a number: no comma, no whitespace, and it reads back. */
  lemma IntReads(n: int)
    ensures var s := IntText(n);
            && s != "" && ParseInt(s) == Some(n)
            && forall k :: 0 <= k < |s| ==> s[k] != ',' && !IsSpace(s[k])
  {
    NatReads(if n < 0 then -n else n);
    if n < 0 { assert IntText(n)[1..] == NatText(-n); }
  }

  lemma {:induction false} SplitWord(w: string, rest: string)
    requires ',' !in w
    ensures Split(w, ',') == [w]
    ensures Split(w + "," + rest, ',') == [w] + Split(rest, ',')
    decreases |w|
  {
    var s := w + "," + rest;
    if w == "" {
      assert s[0] == ',' && s[1..] == rest;
    } else {
      SplitWord(w[1..], rest);
      assert [w[0]] + w[1..] == w;
      assert s[1..] == w[1..] + "," + rest;
    }
  }

  lemma {:induction false} SplitJoin(words: seq<string>)
    requires words != [] && forall k :: 0 <= k < |words| ==> ',' !in words[k]
    ensures Split(Join(words, ","), ',') == words
    decreases |words|
  {
    if |words| == 1 {
      SplitWord(words[0], "");
    } else {
      SplitWord(words[0], Join(words[1..], ","));
      SplitJoin(words[1..]);
    }
  }

  lemma {:induction false} PartsRead(ids: seq<int>)
    ensures ParseParts(Texts(ids)) == Some(ids)
    decreases |ids|
  {
    hide Strip;
    hide ParseInt;
    if ids != [] {
      var s := IntText(ids[0]);
      IntReads(ids[0]);
      StripsToItself(s);
      PartsRead(ids[1..]);
      assert Texts(ids)[1..] == Texts(ids[1..]);
      assert [ids[0]] + ids[1..] == ids;
    }
  }

  /** The list that is written is the list that is read. */
  lemma IdsReadBack(ids: seq<int>)
    ensures ParseIds(PrintIds(ids)) == Some(ids)
  {
    if ids != [] {
      forall k | 0 <= k < |ids| ensures ',' !in Texts(ids)[k] && Texts(ids)[k] != "" { IntReads(ids[k]); }
      SplitJoin(Texts(ids));
      PartsRead(ids);
    }
  }
}
