/** Streaming the lines of a growing log file. */
module LogTail {
  import opened Text

  type Byte = b: int | 0 <= b < 256

  /** The lines that have ended. */
  function Complete(s: string): seq<string> {
    var parts := Split(s, '\n');
    parts[..|parts| - 1]
  }

  /** The line that has not. */
  function Rest(s: string): string {
    var parts := Split(s, '\n');
    parts[|parts| - 1]
  }

  /** Splitting is lossless, and leaves no line break in a line. */
  lemma {:induction false} SplitLossless(s: string)
    ensures Join(Split(s, '\n'), "\n") == s
    ensures forall k :: 0 <= k < |Split(s, '\n')| ==> '\n' !in Split(s, '\n')[k]
    decreases |s|
  {
    hide Join;
    if s == "" {
      JoinOne("");
    } else {
      SplitLossless(s[1..]);
      var rest := Split(s[1..], '\n');
      assert s == [s[0]] + s[1..];
      if s[0] == '\n' {
        JoinEmpty(rest);
      } else {
        JoinFirst(s[0], rest);
      }
    }
  }

  lemma JoinOne(t: string)
    ensures Join([t], "\n") == t
  {}

  lemma JoinEmpty(rest: seq<string>)
    requires rest != []
    ensures Join([""] + rest, "\n") == "\n" + Join(rest, "\n")
  {
    assert ([""] + rest)[1..] == rest;
  }

  lemma JoinFirst(c: char, rest: seq<string>)
    requires rest != []
    ensures Join([[c] + rest[0]] + rest[1..], "\n") == [c] + Join(rest, "\n")
  {
    assert ([[c] + rest[0]] + rest[1..])[1..] == rest[1..];
  }

  lemma Unfold(s: string)
    requires s != ""
    ensures var c, r := Complete(s[1..]), Rest(s[1..]);
            if s[0] == '\n' then Complete(s) == [""] + c && Rest(s) == r
            else if c == [] then Complete(s) == [] && Rest(s) == [s[0]] + r
            else Complete(s) == [[s[0]] + c[0]] + c[1..] && Rest(s) == r
  {
    var parts, rest := Split(s, '\n'), Split(s[1..], '\n');
    if s[0] == '\n' {
      assert parts == [""] + rest;
    } else {
      assert parts == [[s[0]] + rest[0]] + rest[1..];
    }
    hide Split;
  }

  /** Text that arrives later only touches the line that has not ended. */
  lemma {:induction false} SplitConcat(s: string, t: string)
    ensures Complete(s + t) == Complete(s) + Complete(Rest(s) + t) && Rest(s + t) == Rest(Rest(s) + t)
    decreases |s|
  {
    hide Complete;
    hide Rest;
    if s == "" {
      NothingYet();
      assert s + t == t && Rest(s) + t == t && Complete(s) + Complete(t) == Complete(t);
    } else {
      SplitConcat(s[1..], t);
      Unfold(s);
      Unfold(s + t);
      assert (s + t)[1..] == s[1..] + t;
      var c, more := Complete(s[1..]), Complete(Rest(s[1..]) + t);
      if s[0] == '\n' {
        assert [""] + (c + more) == ([""] + c) + more;
      } else if c == [] {
        assert Rest(s) + t == [s[0]] + (Rest(s[1..]) + t);
        Unfold(Rest(s) + t);
        assert (Rest(s) + t)[1..] == Rest(s[1..]) + t;
        assert c + more == more;
      } else {
        assert (c + more)[0] == c[0] && (c + more)[1..] == c[1..] + more;
        assert [[s[0]] + c[0]] + (c[1..] + more) == ([[s[0]] + c[0]] + c[1..]) + more;
      }
    }
  }

  /** What was streamed before and what the new text completes: together the complete lines of it all. */
  lemma StreamStep(s: string, t: string)
    ensures Filled(Complete(s + t)) == Filled(Complete(s)) + Filled(Complete(Rest(s) + t))
    ensures Rest(s + t) == Rest(Rest(s) + t)
  {
    SplitConcat(s, t);
    FilledConcat(Complete(s), Complete(Rest(s) + t));
  }

  predicate Ascii(bytes: seq<Byte>) {
    forall k :: 0 <= k < |bytes| ==> bytes[k] < 128
  }

  function AsciiText(bytes: seq<Byte>): (s: string)
    requires Ascii(bytes)
    ensures |s| == |bytes|
  {
    seq(|bytes|, k requires 0 <= k < |bytes| => bytes[k] as char)
  }

  /** The state of `stream_lines` between two polls. */
  class Tailer {
    const decode: seq<Byte> -> string
    var pos: nat
    var buf: string
    /** what was read since the start or the last rotation, as it was decoded, and the lines yielded */
    ghost var bytes: seq<Byte>
    ghost var text: string
    ghost var yielded: seq<string>

    ghost predicate Valid()
      reads this
    {
      && (forall b: seq<Byte> {:trigger decode(b)} :: Ascii(b) ==> decode(b) == AsciiText(b))
      && yielded == Filled(Complete(text)) && buf == Rest(text)
      && (Ascii(bytes) ==> text == AsciiText(bytes))
      && |bytes| <= pos
    }

    constructor (decode: seq<Byte> -> string, size: nat)
      requires forall b: seq<Byte> {:trigger decode(b)} :: Ascii(b) ==> decode(b) == AsciiText(b)
      ensures Valid() && pos == size && text == "" && bytes == [] && yielded == []
    {
      this.decode, pos, buf, bytes, text, yielded := decode, size, "", [], "", [];
    }

    /** One poll: the file's size, if it can be had, and its content when it is read a moment later. */
    method Poll(size: Option<nat>, content: Option<seq<Byte>>) returns (news: seq<string>)
      requires Valid()
      modifies this
      ensures Valid()
      ensures size.None? || size.value == old(pos) ==> news == [] && pos == old(pos) && text == old(text) && yielded == old(yielded)
      ensures size.Some? && size.value < old(pos) ==> yielded == news
      ensures size.Some? && size.value > old(pos) ==> yielded == old(yielded) + news
      ensures size.Some? && size.value > old(pos) && content.Some? && |content.value| >= old(pos) ==>
        pos == |content.value| && bytes == old(bytes) + content.value[old(pos)..]
      ensures size.Some? && size.value < old(pos) && size.value > 0 && content.Some? ==>
        pos == |content.value| && bytes == content.value
    {
      hide Complete;
      hide Rest;
      news := [];
      if size.None? {
        return;
      }
      if size.value < pos {
        pos, buf := 0, "";
        bytes, text, yielded := [], "", [];
        NothingYet();
      }
      if size.value == pos || content.None? {
        return;
      }
      var chunk := if pos <= |content.value| then content.value[pos..] else [];
      pos := if pos <= |content.value| then |content.value| else pos;
      AsciiConcat(bytes, chunk);
      StreamStep(text, decode(chunk));
      bytes, text := bytes + chunk, text + decode(chunk);
      buf, news := Take(buf + decode(chunk));
      yielded := yielded + news;
    }

    /** Split off the unfinished line; keep the complete ones that are not empty. */
    static method Take(buf: string) returns (rest: string, news: seq<string>)
      ensures rest == Rest(buf) && news == Filled(Complete(buf))
    {
      var parts := Split(buf, '\n');
      rest, parts := parts[|parts| - 1], parts[..|parts| - 1];
      news := Filled(parts);
    }
  }

  lemma NothingYet()
    ensures Complete("") == [] && Filled([]) == [] && Rest("") == "" && AsciiText([]) == ""
  {}

  lemma AsciiConcat(a: seq<Byte>, b: seq<Byte>)
    ensures Ascii(a + b) <==> Ascii(a) && Ascii(b)
    ensures Ascii(a + b) ==> AsciiText(a + b) == AsciiText(a) + AsciiText(b)
  {
    assert forall k :: 0 <= k < |a| ==> (a + b)[k] == a[k];
    assert forall k :: 0 <= k < |b| ==> (a + b)[|a| + k] == b[k];
  }
}
