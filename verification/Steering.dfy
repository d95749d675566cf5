/** Mid-turn steering: one run's channel, and the request the model is sent. */
module Steering {
  import opened Text
  import opened Replacing

  const STEER_MAX_CHARS: nat := 2000
  const STEER_MAX_PENDING: nat := 3
  const NONCE_PLACEHOLDER: string := "__ARGUS_STEER_NONCE__"
  const MARKER_ID: string := "USER_STEER id="

  /** The content of a message: a string, or anything else (nothing, or a list of parts) with the
      strings inside it. */
  datatype Content = Plain(text: string) | Other(strings: seq<string>)

  /** A message, with the strings of the tool call it echoes. */
  datatype Message = Message(role: string, content: Content, calls: seq<string>)

  function OpenMark(id: string): string {
    "<<<USER_STEER id=" + id + ">>>"
  }

  function CloseMark(id: string): string {
    "<<<END_USER_STEER id=" + id + ">>>"
  }

  function Block(id: string, body: string): string {
    OpenMark(id) + "\n" + body + "\n" + CloseMark(id)
  }

  /** A tool result with a block after it. */
  function WithBlock(result: string, block: string): string {
    if AllSpace(result) then block else RStrip(result) + "\n\n" + block
  }

  // ---- the request --------------------------------------------------------------

  function SplicedText(text: string, slots: set<string>, nonce: string): string {
    if slots != {} && Has(text, MARKER_ID) then Rewrite(text, slots, nonce) else text
  }

  function SplicedMessage(i: nat, m: Message, slots: set<string>, nonce: string): Message {
    match m.content
    case Other(_) => m
    case Plain(c) =>
      if i == 0 && m.role == "system" && Has(c, NONCE_PLACEHOLDER)
      then m.(content := Plain(Replace(c, NONCE_PLACEHOLDER, nonce)))
      else m.(content := Plain(SplicedText(c, slots, nonce)))
  }

  function Spliced(messages: seq<Message>, slots: set<string>, nonce: string): (r: seq<Message>)
    ensures |r| == |messages|
  {
    seq(|messages|, i requires 0 <= i < |messages| => SplicedMessage(i, messages[i], slots, nonce))
  }

  // ---- the channel ----------------------------------------------------------------

  datatype Queued = Accepted(pending: nat) | Empty | TooLong(limit: nat, length: nat) | TooMany(limit: nat)

  datatype Landed = Landed(text: string, count: nat)

  class SteerChannel {
    const nonce: string
    const maxChars: nat
    const maxPending: nat
    var pending: seq<string>
    var slots: set<string>
    var delivered: nat

    ghost predicate Valid()
      reads this
    {
      && Token(nonce) && Tokens(slots) && nonce !in slots
      && |pending| <= maxPending
      && forall k :: 0 <= k < |pending| ==> pending[k] != "" && |pending[k]| <= maxChars
    }

    constructor (nonce: string)
      requires Token(nonce)
      ensures Valid() && this.nonce == nonce
      ensures pending == [] && slots == {} && delivered == 0
      ensures maxChars == STEER_MAX_CHARS && maxPending == STEER_MAX_PENDING
    {
      this.nonce := nonce;
      maxChars, maxPending := STEER_MAX_CHARS, STEER_MAX_PENDING;
      pending, slots, delivered := [], {}, 0;
    }

    /** Accept a note for the next tool result, or say why not. */
    method Queue(text: string) returns (r: Queued)
      requires Valid()
      modifies this`pending
      ensures Valid()
      ensures r.Accepted? <==> 0 < |Strip(text)| <= maxChars && |old(pending)| < maxPending
      ensures r.Accepted? ==> pending == old(pending) + [Strip(text)] && r.pending == |pending|
      ensures !r.Accepted? ==> pending == old(pending)
      ensures r.Empty? <==> Strip(text) == ""
      ensures r.TooLong? <==> |Strip(text)| > maxChars
      ensures r.TooLong? ==> r == TooLong(maxChars, |Strip(text)|)
      ensures r.TooMany? ==> r == TooMany(maxPending)
    {
      var note := Strip(text);
      if note == "" {
        return Empty;
      }
      if |note| > maxChars {
        return TooLong(maxChars, |note|);
      }
      if |pending| >= maxPending {
        return TooMany(maxPending);
      }
      pending := pending + [note];
      return Accepted(|pending|);
    }

    /** The run is being abandoned: drop what is still queued. */
    method Abandon() returns (n: nat)
      requires Valid()
      modifies this`pending
      ensures Valid() && pending == [] && n == |old(pending)|
    {
      n, pending := |pending|, [];
    }

    /** The run ends: hand over what never landed. */
    method Drain() returns (left: seq<string>)
      requires Valid()
      modifies this`pending
      ensures Valid() && pending == [] && left == old(pending)
    {
      left, pending := pending, [];
    }

    /** Append every queued note to a tool result, as one block under a fresh sentinel. */
    method Attach(result: string, sentinel: string) returns (text: string, landed: Option<Landed>)
      requires Valid()
      requires Token(sentinel) && sentinel != nonce
      modifies this`pending, this`slots, this`delivered
      ensures Valid() && pending == []
      ensures old(pending) == [] ==> text == result && landed == None && slots == old(slots) && delivered == old(delivered)
      ensures old(pending) != [] ==>
        && landed == Some(Landed(Join(old(pending), "\n"), |old(pending)|))
        && text == WithBlock(result, Block(sentinel, Join(old(pending), "\n")))
        && slots == old(slots) + {sentinel} && delivered == old(delivered) + |old(pending)|
    {
      if pending == [] {
        return result, None;
      }
      var texts := pending;
      pending := [];
      slots := slots + {sentinel};
      delivered := delivered + |texts|;
      var body := Join(texts, "\n");
      var block := Block(sentinel, body);
      text := if AllSpace(result) then block else RStrip(result) + "\n\n" + block;
      landed := Some(Landed(body, |texts|));
    }

    /** A copy of the request with the nonce in it. The slots are taken in no particular order. */
    method Apply(messages: seq<Message>) returns (out: seq<Message>)
      requires Valid()
      ensures out == Spliced(messages, slots, nonce)
    {
      out := [];
      var i := 0;
      while i < |messages|
        invariant 0 <= i <= |messages|
        invariant out == Spliced(messages, slots, nonce)[..i]
      {
        var m := messages[i];
        if m.content.Plain? {
          var c := m.content.text;
          if i == 0 && m.role == "system" && Has(c, NONCE_PLACEHOLDER) {
            m := m.(content := Plain(Replace(c, NONCE_PLACEHOLDER, nonce)));
          } else if slots != {} && Has(c, MARKER_ID) {
            var new' := Substitute(c);
            m := m.(content := Plain(new'));
          }
        }
        assert m == SplicedMessage(i, messages[i], slots, nonce);
        out := out + [m];
        i := i + 1;
      }
    }

    /** Every issued id in a text, one `replace` each. */
    method Substitute(c: string) returns (r: string)
      requires Valid()
      ensures r == Rewrite(c, slots, nonce)
    {
      r := c;
      RewriteNone(c, nonce);
      var left := slots;
      assert slots - left == {};
      while left != {}
        invariant left <= slots
        invariant r == Rewrite(c, slots - left, nonce)
        decreases left
      {
        var s :| s in left;
        RewriteOneMore(c, slots - left, s, nonce);
        assert slots - left + {s} == slots - (left - {s});
        r := Replace(r, IdOf(s), IdOf(nonce));
        left := left - {s};
      }
      assert slots - left == slots;
    }
  }

  lemma {:induction false} RewriteNone(c: string, nonce: string)
    ensures Rewrite(c, {}, nonce) == c
    decreases |c|
  {
    if c != "" { RewriteNone(c[1..], nonce); }
  }

  // ---- what the model is shown -----------------------------------------------------

  predicate IdAlphabet(c: char) {
    c == 'i' || c == 'd' || c == '=' || IsHex(c)
  }

  /** Rewriting ids touches nothing but ids. */
  lemma {:induction false} RewriteKeeps(c: string, ids: set<string>, nonce: string, k: nat)
    requires Tokens(ids) && Token(nonce) && k < |c|
    ensures |Rewrite(c, ids, nonce)| == |c|
    ensures !IdAlphabet(c[k]) || !IdAlphabet(Rewrite(c, ids, nonce)[k]) ==> Rewrite(c, ids, nonce)[k] == c[k]
    decreases |c|
  {
    RewriteLength(c, ids, nonce);
    if StartsId(c, ids) {
      StartsIdOf(c, ids);
      if k < 19 {
        assert Rewrite(c, ids, nonce)[k] == IdOf(nonce)[k];
        assert c[k] == IdOf(c[3..19])[k];
        InAlphabet(nonce, k);
        InAlphabet(c[3..19], k);
      } else {
        RewriteKeeps(c[19..], ids, nonce, k - 19);
      }
    } else if k > 0 {
      RewriteKeeps(c[1..], ids, nonce, k - 1);
    }
  }

  lemma InAlphabet(h: string, k: nat)
    requires Token(h) && k < 19
    ensures IdAlphabet(IdOf(h)[k])
  {
    if k >= 3 { assert IdOf(h)[k] == h[k - 3]; }
  }

  /** Text outside the id alphabet stands in the result exactly where it stood before. */
  lemma FixedText(c: string, ids: set<string>, nonce: string, w: string, p: nat)
    requires Tokens(ids) && Token(nonce)
    requires forall k :: 0 <= k < |w| ==> !IdAlphabet(w[k])
    ensures At(Rewrite(c, ids, nonce), w, p) <==> At(c, w, p)
  {
    var out := Rewrite(c, ids, nonce);
    RewriteLength(c, ids, nonce);
    if p + |w| <= |c| {
      forall k | 0 <= k < |w| ensures out[p + k] == w[k] <==> c[p + k] == w[k] {
        RewriteKeeps(c, ids, nonce, p + k);
      }
    }
    AtChars(out, w, p);
    AtChars(c, w, p);
  }

  lemma AtChars(s: string, w: string, p: nat)
    ensures At(s, w, p) <==> p + |w| <= |s| && forall k :: 0 <= k < |w| ==> s[p + k] == w[k]
  {
    if p + |w| <= |s| {
      var t := s[p..p + |w|];
      assert forall k :: 0 <= k < |w| ==> t[k] == s[p + k];
    }
  }

  lemma AtConcat(s: string, a: string, b: string, p: nat)
    ensures At(s, a + b, p) <==> At(s, a, p) && At(s, b, p + |a|)
  {
    if p + |a| + |b| <= |s| {
      assert s[p..p + |a + b|] == s[p..p + |a|] + s[p + |a|..p + |a| + |b|];
      assert (a + b)[..|a|] == a && (a + b)[|a|..] == b;
    }
  }

  const OPENING: string := "<<<USER_STEER "

  lemma OpenMarkAt(s: string, id: string, p: nat)
    ensures At(s, OpenMark(id), p) <==> At(s, OPENING, p) && At(s, IdOf(id), p + 14) && At(s, ">>>", p + 14 + |IdOf(id)|)
  {
    assert OpenMark(id) == OPENING + (IdOf(id) + ">>>");
    AtConcat(s, OPENING, IdOf(id) + ">>>", p);
    AtConcat(s, IdOf(id), ">>>", p + 14);
  }

  lemma AtHas(s: string, a: string, b: string, p: nat)
    requires At(s, a + b, p)
    ensures Has(s, a) && Has(s, b)
  {
    AtConcat(s, a, b, p);
    assert At(s, b, p + |a|);
  }

  /** What makes a marker genuine: in conversation text without the nonce, the model is shown a
      marker with the run's id exactly where the stored text has one with an issued sentinel. */
  lemma GenuineMarkers(c: string, slots: set<string>, nonce: string, p: nat)
    requires Tokens(slots) && Token(nonce) && !Has(c, nonce)
    ensures At(SplicedText(c, slots, nonce), OpenMark(nonce), p)
       <==> exists s :: s in slots && At(c, OpenMark(s), p)
  {
    hide Token;
    hide Rewrite;
    var out := Rewrite(c, slots, nonce);
    forall s | s in slots && At(c, OpenMark(s), p) ensures Has(c, MARKER_ID) {
      assert OpenMark(s) == "<<<" + (MARKER_ID + (s + ">>>"));
      AtConcat(c, "<<<", MARKER_ID + (s + ">>>"), p);
      AtHas(c, MARKER_ID, s + ">>>", p + 3);
    }
    if At(c, OpenMark(nonce), p) {
      assert OpenMark(nonce) == "<<<USER_STEER id=" + (nonce + ">>>");
      AtConcat(c, "<<<USER_STEER id=", nonce + ">>>", p);
      AtHas(c, nonce, ">>>", p + |"<<<USER_STEER id="|);
      assert false;
    }
    OpenMarkAt(out, nonce, p);
    OpeningFixed(c, slots, nonce, p);
    FixedText(c, slots, nonce, ">>>", p + 33);
    RewriteExact(c, slots, nonce, p + 14);
    IdParts(nonce);
    forall s | s in slots + {nonce} ensures
      At(c, OpenMark(s), p) <==> At(c, OPENING, p) && At(c, IdOf(s), p + 14) && At(c, ">>>", p + 33)
    {
      IdParts(s);
      OpenMarkAt(c, s, p);
    }
  }

  lemma OpeningFixed(c: string, slots: set<string>, nonce: string, p: nat)
    requires Tokens(slots) && Token(nonce)
    ensures At(Rewrite(c, slots, nonce), OPENING, p) <==> At(c, OPENING, p)
  {
    FixedText(c, slots, nonce, OPENING, p);
  }

  /** The block a channel appends to a tool result is genuine in every later request. */
  lemma AttachedIsGenuine(result: string, body: string, sentinel: string, slots: set<string>, nonce: string)
    requires Tokens(slots) && Token(nonce) && sentinel in slots
    requires !Has(WithBlock(result, Block(sentinel, body)), nonce)
    ensures var text := WithBlock(result, Block(sentinel, body));
            Has(SplicedText(text, slots, nonce), OpenMark(nonce))
  {
    var text := WithBlock(result, Block(sentinel, body));
    var p := |text| - |Block(sentinel, body)|;
    var tail := "\n" + body + "\n" + CloseMark(sentinel);
    assert Block(sentinel, body) == OpenMark(sentinel) + tail;
    assert text[p..] == Block(sentinel, body);
    assert text[p..p + |OpenMark(sentinel)|] == OpenMark(sentinel);
    assert At(text, OpenMark(sentinel), p);
    GenuineMarkers(text, slots, nonce, p);
    AtBound(SplicedText(text, slots, nonce), OpenMark(nonce), p);
  }

  lemma AtBound(s: string, sub: string, p: nat)
    requires At(s, sub, p)
    ensures Has(s, sub)
  {
  }

  ghost predicate FreeText(s: string, nonce: string) {
    !Has(s, nonce)
  }

  ghost predicate FreeTexts(strings: seq<string>, nonce: string) {
    forall k :: 0 <= k < |strings| ==> FreeText(strings[k], nonce)
  }

  ghost predicate FreeMessage(m: Message, nonce: string) {
    && FreeText(m.role, nonce) && FreeTexts(m.calls, nonce)
    && match m.content case Plain(c) => FreeText(c, nonce) case Other(ss) => FreeTexts(ss, nonce)
  }
}
