/** Writing the configuration into an .env file, in place. */
module EnvFile {
  import opened Text

  /** The position of the first c in s, or |s|. */
  function Find(s: string, c: char): (k: nat)
    ensures k <= |s| && (k < |s| ==> s[k] == c) && forall j :: 0 <= j < k ==> s[j] != c
  {
    if s == "" || s[0] == c then 0 else 1 + Find(s[1..], c)
  }

  /** "\n".join(lines) + "\n" */
  function Written(lines: seq<string>): string {
    Join(lines, "\n") + "\n"
  }

  lemma FirstBreakAt(line: string, rest: string)
    requires OneLine(line)
    ensures FirstBreak(line + "\n" + rest) == |line|
  {
    var s := line + "\n" + rest;
    assert s[|line|] == '\n';
    assert forall j :: 0 <= j < |line| ==> s[j] == line[j];
  }

  /** A file written line by line reads back line by line, unless it had no line at all. */
  lemma {:induction false} ReadBack(lines: seq<string>)
    requires lines != [] && forall k :: 0 <= k < |lines| ==> OneLine(lines[k])
    ensures SplitLines(Written(lines)) == lines
    decreases |lines|
  {
    hide FirstBreak;
    var rest := if |lines| == 1 then "" else Written(lines[1..]);
    assert Written(lines) == lines[0] + "\n" + rest;
    FirstBreakAt(lines[0], rest);
    assert Written(lines)[..|lines[0]|] == lines[0];
    assert Written(lines)[|lines[0]| + 1..] == rest;
    if |lines| > 1 { ReadBack(lines[1..]); }
  }

  // ---- assignments -------------------------------------------------------------------

  /** The key a line assigns, if it is an assignment and not a comment. */
  function KeyOf(line: string): Option<string> {
    var stripped := Strip(line);
    if stripped != "" && stripped[0] != '#' && '=' in stripped
    then Some(Strip(stripped[..Find(stripped, '=')]))
    else None
  }

  /** What is written after the `=`. */
  function ValueOf(line: string): string {
    var k := Find(line, '=');
    if k < |line| then line[k + 1..] else ""
  }

  function Assign(key: string, value: string): string {
    key + "=" + value
  }

  /** Field names in upper case: no blanks, no `=`, not a comment, one line. */
  predicate KeyLike(key: string) {
    && key != "" && key[0] != '#' && OneLine(key)
    && forall k :: 0 <= k < |key| ==> !IsSpace(key[k]) && key[k] != '='
  }

  /** The configuration's values, in this order of their keys; values stay on one line. */
  predicate Settings(keys: seq<string>, values: map<string, string>) {
    && (forall k :: 0 <= k < |keys| ==> keys[k] in values)
    && (forall k :: k in values ==> k in keys && KeyLike(k) && OneLine(values[k]))
  }

  predicate Sets(line: string, key: string) {
    KeyOf(line) == Some(key)
  }

  lemma {:induction false} RStripKeeps(s: string, k: nat)
    requires k < |s| && !IsSpace(s[k])
    ensures |RStrip(s)| > k
    decreases |s|
  {
    if IsSpace(s[|s| - 1]) { RStripKeeps(s[..|s| - 1], k); }
  }

  lemma NoSpace()
    ensures !IsSpace('=')
  {}

  lemma LStripSame(s: string)
    requires s != "" && !IsSpace(s[0])
    ensures LStrip(s) == s
  {}

  /** Stripping an assignment takes nothing off its key. */
  lemma StripAssign(key: string, value: string)
    requires KeyLike(key)
    ensures var r := Strip(Assign(key, value)); key + "=" <= r
  {
    hide IsSpace;
    hide RStrip;
    hide LStrip;
    var line := Assign(key, value);
    var r := RStrip(line);
    assert line[|key|] == '=' && forall k :: 0 <= k < |key| ==> line[k] == key[k];
    NoSpace();
    RStripKeeps(line, |key|);
    assert r[0] == line[0] == key[0];
    LStripSame(r);
    assert line[..|key| + 1] == key + "=";
    assert r[..|key| + 1] == line[..|key| + 1];
  }

  lemma FindAfter(s: string, key: string)
    requires KeyLike(key) && key + "=" <= s
    ensures Find(s, '=') == |key| && s[..|key|] == key && s[|key|] == '='
  {
    assert s[..|key| + 1] == key + "=";
    assert s[|key|] == (key + "=")[|key|];
    assert forall k :: 0 <= k < |key| ==> s[k] == (key + "=")[k] == key[k];
  }

  lemma AssignSets(key: string, value: string)
    requires KeyLike(key)
    ensures Sets(Assign(key, value), key) && ValueOf(Assign(key, value)) == value
    ensures OneLine(value) ==> OneLine(Assign(key, value))
  {
    hide IsSpace;
    hide Strip;
    hide Find;
    var line := Assign(key, value);
    StripAssign(key, value);
    FindAfter(Strip(line), key);
    assert line[..|key| + 1] == key + "=";
    FindAfter(line, key);
    StripsToItself(key);
    assert line[|key| + 1..] == value;
  }

  // ---- the new file -----------------------------------------------------------------------

  /** A line that assigns a configured key gets that key's value. */
  function Rewritten(line: string, values: map<string, string>): string {
    var key := KeyOf(line);
    if key.Some? && key.value in values then Assign(key.value, values[key.value]) else line
  }

  predicate Seen(lines: seq<string>, key: string) {
    exists k :: 0 <= k < |lines| && Sets(lines[k], key)
  }

  function Missing(lines: seq<string>, keys: seq<string>, values: map<string, string>): seq<string>
    requires forall k :: 0 <= k < |keys| ==> keys[k] in values
  {
    if keys == [] then []
    else (if Seen(lines, keys[0]) then [] else [Assign(keys[0], values[keys[0]])]) + Missing(lines, keys[1..], values)
  }

  function Persisted(lines: seq<string>, keys: seq<string>, values: map<string, string>): seq<string>
    requires forall k :: 0 <= k < |keys| ==> keys[k] in values
  {
    AllRewritten(lines, values) + Missing(lines, keys, values)
  }

  /** The first, or the last, assignment of a key wins. */
  function FirstWins(lines: seq<string>, key: string): Option<string> {
    if lines == [] then None else if Sets(lines[0], key) then Some(ValueOf(lines[0])) else FirstWins(lines[1..], key)
  }

  function LastWins(lines: seq<string>, key: string): Option<string> {
    if lines == [] then None
    else
      var n := |lines| - 1;
      if Sets(lines[n], key) then Some(ValueOf(lines[n])) else LastWins(lines[..n], key)
  }

  function AllRewritten(lines: seq<string>, values: map<string, string>): seq<string> {
    seq(|lines|, k requires 0 <= k < |lines| => Rewritten(lines[k], values))
  }

  method PersistToEnv(file: Option<string>, keys: seq<string>, values: map<string, string>) returns (written: string)
    requires Settings(keys, values)
    ensures written == Written(Persisted(if file.Some? then SplitLines(file.value) else [], keys, values))
  {
    hide KeyOf;
    hide Missing;
    var lines := if file.Some? then SplitLines(file.value) else [];
    var out, seen := UpdateLines(lines, values);
    out := AddMissing(out, seen, lines, keys, values);
    return Written(out);
  }

  /** The lines with their configured assignments renewed, and the keys renewed. */
  method UpdateLines(lines: seq<string>, values: map<string, string>) returns (out: seq<string>, seen: set<string>)
    ensures out == AllRewritten(lines, values)
    ensures forall key :: key in seen <==> key in values && Seen(lines, key)
  {
    hide KeyOf;
    hide Seen;
    seen, out := {}, [];
    SeenNothing();
    assert lines[..0] == [];
    for i := 0 to |lines|
      invariant out == AllRewritten(lines[..i], values)
      invariant forall key :: key in seen <==> key in values && Seen(lines[..i], key)
    {
      var line := lines[i];
      assert lines[..i + 1] == lines[..i] + [line];
      forall key ensures Seen(lines[..i + 1], key) <==> Seen(lines[..i], key) || Sets(line, key) {
        SeenSnoc(lines[..i], line, key);
      }
      assert AllRewritten(lines[..i + 1], values) == out + [Rewritten(line, values)];
      var key := KeyOf(line);
      if key.Some? && key.value in values {
        out := out + [Assign(key.value, values[key.value])];
        seen := seen + {key.value};
        continue;
      }
      out := out + [line];
    }
    assert lines[..|lines|] == lines;
  }

  method AddMissing(out0: seq<string>, seen: set<string>, ghost lines: seq<string>, keys: seq<string>,
                    values: map<string, string>) returns (out: seq<string>)
    requires forall k :: 0 <= k < |keys| ==> keys[k] in values
    requires forall key :: key in seen <==> key in values && Seen(lines, key)
    ensures out == out0 + Missing(lines, keys, values)
  {
    hide KeyOf;
    hide Seen;
    out := out0;
    for i := 0 to |keys|
      invariant out + Missing(lines, keys[i..], values) == out0 + Missing(lines, keys, values)
    {
      var key := keys[i];
      assert keys[i..][0] == key && keys[i..][1..] == keys[i + 1..];
      ghost var add, more := if key !in seen then [Assign(key, values[key])] else [], Missing(lines, keys[i + 1..], values);
      assert out + (add + more) == (out + add) + more;
      if key !in seen {
        out := out + [Assign(key, values[key])];
      }
    }
    assert out + Missing(lines, [], values) == out;
  }

  lemma SeenNothing()
    ensures forall key :: !Seen([], key)
  {}

  lemma SeenSnoc(lines: seq<string>, line: string, key: string)
    ensures Seen(lines + [line], key) <==> Seen(lines, key) || Sets(line, key)
  {
    hide KeyOf;
    var all := lines + [line];
    if Sets(line, key) { assert Sets(all[|lines|], key); }
    if Seen(lines, key) {
      var k :| 0 <= k < |lines| && Sets(lines[k], key);
      assert Sets(all[k], key);
    }
  }

  // ---- what the file then says ---------------------------------------------------------------

  /** A renewed line assigns the key it did; other lines are left alone. */
  lemma RewrittenKey(line: string, values: map<string, string>)
    requires forall k :: k in values ==> KeyLike(k) && OneLine(values[k])
    ensures KeyOf(Rewritten(line, values)) == KeyOf(line)
    ensures forall key :: key in values && Sets(line, key) ==> ValueOf(Rewritten(line, values)) == values[key]
    ensures (forall key :: key in values ==> !Sets(line, key)) ==> Rewritten(line, values) == line
    ensures OneLine(line) ==> OneLine(Rewritten(line, values))
    ensures Rewritten(Rewritten(line, values), values) == Rewritten(line, values)
  {
    hide Strip;
    var key := KeyOf(line);
    if key.Some? && key.value in values { AssignSets(key.value, values[key.value]); }
  }

  /** A line added at the end assigns a configured key that no line assigned. */
  lemma {:induction false} MissingLines(lines: seq<string>, keys: seq<string>, values: map<string, string>, k: nat)
    requires forall i :: 0 <= i < |keys| ==> keys[i] in values
    requires forall key :: key in values ==> KeyLike(key) && OneLine(values[key])
    requires k < |Missing(lines, keys, values)|
    ensures exists key :: key in values && !Seen(lines, key) && Missing(lines, keys, values)[k] == Assign(key, values[key])
    decreases |keys|
  {
    hide Seen;
    hide Assign;
    if Seen(lines, keys[0]) {
      MissingLines(lines, keys[1..], values, k);
    } else if k > 0 {
      MissingLines(lines, keys[1..], values, k - 1);
    }
  }

  lemma {:induction false} MissingHas(lines: seq<string>, keys: seq<string>, values: map<string, string>, key: string) returns (k: nat)
    requires forall i :: 0 <= i < |keys| ==> keys[i] in values
    requires key in keys && !Seen(lines, key)
    ensures k < |Missing(lines, keys, values)| && Missing(lines, keys, values)[k] == Assign(key, values[key])
    decreases |keys|
  {
    hide Seen;
    if keys[0] == key {
      k := 0;
    } else {
      k := MissingHas(lines, keys[1..], values, key);
      k := if Seen(lines, keys[0]) then k else k + 1;
    }
  }

  /** Lines stay where they were; only those that assign a configured key change, and only such lines
      are added. */
  lemma OtherLinesStay(lines: seq<string>, keys: seq<string>, values: map<string, string>, k: nat)
    requires Settings(keys, values) && k < |Persisted(lines, keys, values)|
    ensures var out := Persisted(lines, keys, values);
            && |lines| <= |out|
            && (if k < |lines| then
                  KeyOf(out[k]) == KeyOf(lines[k]) && ((forall key :: key in values ==> !Sets(lines[k], key)) ==> out[k] == lines[k])
                else exists key :: key in values && Sets(out[k], key) && !Seen(lines, key))
  {
    hide KeyOf;
    hide Seen;
    if k < |lines| {
      RewrittenKey(lines[k], values);
    } else {
      MissingLines(lines, keys, values, k - |lines|);
      var key :| key in values && !Seen(lines, key) && Missing(lines, keys, values)[k - |lines|] == Assign(key, values[key]);
      AssignSets(key, values[key]);
    }
  }

  /** Whatever assigns a configured key assigns its value, and something does. */
  lemma Settled(lines: seq<string>, keys: seq<string>, values: map<string, string>, key: string)
    requires Settings(keys, values) && key in values
    ensures var out := Persisted(lines, keys, values);
            && Seen(out, key) && forall k :: 0 <= k < |out| && Sets(out[k], key) ==> ValueOf(out[k]) == values[key]
  {
    hide KeyOf;
    hide Missing;
    var out := Persisted(lines, keys, values);
    forall k | 0 <= k < |out| && Sets(out[k], key) ensures ValueOf(out[k]) == values[key] {
      if k < |lines| {
        RewrittenKey(lines[k], values);
      } else {
        MissingLines(lines, keys, values, k - |lines|);
        var other :| other in values && !Seen(lines, other) && out[k] == Assign(other, values[other]);
        AssignSets(other, values[other]);
      }
    }
    if Seen(lines, key) {
      var k :| 0 <= k < |lines| && Sets(lines[k], key);
      RewrittenKey(lines[k], values);
      assert Sets(out[k], key);
    } else {
      var k := MissingHas(lines, keys, values, key);
      AssignSets(key, values[key]);
      assert Sets(out[|lines| + k], key);
    }
  }

  lemma AgreedReads(lines: seq<string>, key: string, value: string)
    requires forall k :: 0 <= k < |lines| && Sets(lines[k], key) ==> ValueOf(lines[k]) == value
    ensures FirstWins(lines, key) == LastWins(lines, key) == if Seen(lines, key) then Some(value) else None
  {
    hide KeyOf;
    FirstAgreed(lines, key, value);
    LastAgreed(lines, key, value);
  }

  lemma {:induction false} FirstAgreed(lines: seq<string>, key: string, value: string)
    requires forall k :: 0 <= k < |lines| && Sets(lines[k], key) ==> ValueOf(lines[k]) == value
    ensures FirstWins(lines, key) == if Seen(lines, key) then Some(value) else None
    decreases |lines|
  {
    hide KeyOf;
    if lines != [] {
      FirstAgreed(lines[1..], key, value);
      SeenCons(lines, key);
    }
  }

  lemma SeenCons(lines: seq<string>, key: string)
    requires lines != []
    ensures Seen(lines, key) <==> Sets(lines[0], key) || Seen(lines[1..], key)
  {
    hide KeyOf;
    if Seen(lines[1..], key) {
      var k :| 0 <= k < |lines[1..]| && Sets(lines[1..][k], key);
      assert Sets(lines[k + 1], key);
    }
    if Seen(lines, key) {
      var k :| 0 <= k < |lines| && Sets(lines[k], key);
      if k > 0 { assert Sets(lines[1..][k - 1], key); }
    }
  }

  lemma {:induction false} LastAgreed(lines: seq<string>, key: string, value: string)
    requires forall k :: 0 <= k < |lines| && Sets(lines[k], key) ==> ValueOf(lines[k]) == value
    ensures LastWins(lines, key) == if Seen(lines, key) then Some(value) else None
    decreases |lines|
  {
    hide KeyOf;
    if lines != [] {
      var n := |lines| - 1;
      LastAgreed(lines[..n], key, value);
      SeenSnoc(lines[..n], lines[n], key);
      assert lines[..n] + [lines[n]] == lines;
    }
  }

  /** A configured key reads its value whether the first or the last assignment wins. */
  lemma ConfiguredReads(lines: seq<string>, keys: seq<string>, values: map<string, string>, key: string)
    requires Settings(keys, values) && key in values
    ensures FirstWins(Persisted(lines, keys, values), key) == Some(values[key])
    ensures LastWins(Persisted(lines, keys, values), key) == Some(values[key])
  {
    hide KeyOf;
    hide Persisted;
    Settled(lines, keys, values, key);
    AgreedReads(Persisted(lines, keys, values), key, values[key]);
  }

  /** Any other key reads what it did before. */
  lemma OthersRead(lines: seq<string>, keys: seq<string>, values: map<string, string>, key: string)
    requires Settings(keys, values) && key !in values
    ensures FirstWins(Persisted(lines, keys, values), key) == FirstWins(lines, key)
    ensures LastWins(Persisted(lines, keys, values), key) == LastWins(lines, key)
  {
    hide KeyOf;
    hide Missing;
    var out := Persisted(lines, keys, values);
    forall k | 0 <= k < |out|
      ensures if k < |lines| then SameFor(lines[k], out[k], key) else !Sets(out[k], key)
    {
      OtherLinesStay(lines, keys, values, k);
      if k < |lines| { RewrittenKey(lines[k], values); }
    }
    SameReads(lines, out, key);
  }

  predicate SameFor(line: string, line': string, key: string) {
    (Sets(line, key) || Sets(line', key)) ==> line' == line
  }

  lemma SameReads(lines: seq<string>, out: seq<string>, key: string)
    requires |lines| <= |out|
    requires forall k :: 0 <= k < |out| ==> if k < |lines| then SameFor(lines[k], out[k], key) else !Sets(out[k], key)
    ensures FirstWins(out, key) == FirstWins(lines, key) && LastWins(out, key) == LastWins(lines, key)
  {
    hide KeyOf;
    SameFirst(lines, out, key);
    SameLast(lines, out, key);
  }

  lemma {:induction false} SameFirst(lines: seq<string>, out: seq<string>, key: string)
    requires |lines| <= |out|
    requires forall k :: 0 <= k < |out| ==> if k < |lines| then SameFor(lines[k], out[k], key) else !Sets(out[k], key)
    ensures FirstWins(out, key) == FirstWins(lines, key)
    decreases |out|
  {
    hide KeyOf;
    hide ValueOf;
    if lines != [] {
      SameFirst(lines[1..], out[1..], key);
    } else if out != [] {
      SameFirst([], out[1..], key);
    }
  }

  lemma {:induction false} SameLast(lines: seq<string>, out: seq<string>, key: string)
    requires |lines| <= |out|
    requires forall k :: 0 <= k < |out| ==> if k < |lines| then SameFor(lines[k], out[k], key) else !Sets(out[k], key)
    ensures LastWins(out, key) == LastWins(lines, key)
    decreases |out|
  {
    hide KeyOf;
    hide ValueOf;
    if |lines| < |out| {
      SameLast(lines, out[..|out| - 1], key);
    } else if lines != [] {
      SameLast(lines[..|lines| - 1], out[..|out| - 1], key);
    }
  }

  /** Saving the same configuration again changes nothing. */
  lemma PersistedTwice(lines: seq<string>, keys: seq<string>, values: map<string, string>)
    requires Settings(keys, values)
    ensures Persisted(Persisted(lines, keys, values), keys, values) == Persisted(lines, keys, values)
  {
    hide KeyOf;
    hide Missing;
    hide Seen;
    var out := Persisted(lines, keys, values);
    forall k | 0 <= k < |out| ensures Rewritten(out[k], values) == out[k] {
      if k < |lines| {
        RewrittenKey(lines[k], values);
      } else {
        MissingLines(lines, keys, values, k - |lines|);
        var key :| key in values && !Seen(lines, key) && out[k] == Assign(key, values[key]);
        AssignSets(key, values[key]);
      }
    }
    assert AllRewritten(out, values) == out;
    forall key | key in values ensures Seen(out, key) { Settled(lines, keys, values, key); }
    NothingMissing(out, keys, values);
  }

  lemma {:induction false} NothingMissing(lines: seq<string>, keys: seq<string>, values: map<string, string>)
    requires forall k :: 0 <= k < |keys| ==> keys[k] in values && Seen(lines, keys[k])
    ensures Missing(lines, keys, values) == []
    decreases |keys|
  {
    hide Seen;
    if keys != [] { NothingMissing(lines, keys[1..], values); }
  }

  /** And so it is of the file: written, read and written again, it is the same text. */
  lemma FileSettles(text: string, keys: seq<string>, values: map<string, string>)
    requires Settings(keys, values) && keys != []
    ensures var written := Written(Persisted(SplitLines(text), keys, values));
            SplitLines(written) == Persisted(SplitLines(text), keys, values)
            && Written(Persisted(SplitLines(written), keys, values)) == written
  {
    hide KeyOf;
    hide Missing;
    hide SplitLines;
    var lines := SplitLines(text);
    var out := Persisted(lines, keys, values);
    LinesStayLines(lines, keys, values);
    Settled(lines, keys, values, keys[0]);
    ReadBack(out);
    PersistedTwice(lines, keys, values);
  }

  lemma LinesStayLines(lines: seq<string>, keys: seq<string>, values: map<string, string>)
    requires Settings(keys, values) && forall k :: 0 <= k < |lines| ==> OneLine(lines[k])
    ensures var out := Persisted(lines, keys, values); forall k :: 0 <= k < |out| ==> OneLine(out[k])
  {
    hide KeyOf;
    hide Missing;
    hide OneLine;
    var out := Persisted(lines, keys, values);
    forall k | 0 <= k < |out| ensures OneLine(out[k]) {
      if k < |lines| {
        RewrittenKey(lines[k], values);
      } else {
        MissingLines(lines, keys, values, k - |lines|);
        var key :| key in values && !Seen(lines, key) && out[k] == Assign(key, values[key]);
        AssignSets(key, values[key]);
      }
    }
  }
}
