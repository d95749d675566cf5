/** What surrounds one run of the agent loop: the model, the tools, the approval gate, the notes the
    user sends, and what the loop writes down. */
module LoopWorld {
  import opened Text
  import opened Echo
  import opened Replacing
  import opened Steering

  // ---- the model's side ---------------------------------------------------------

  datatype CallArgs = Raw(text: string) | Structured(strings: seq<string>)

  /** A model response: the fields the leak defence covers, and the strings of all the others. */
  datatype Reply = Reply(content: Option<string>, reasoning: Option<string>, calls: seq<CallArgs>,
                         truncated: bool, others: seq<string>)

  datatype Answered = Down(error: string) | Said(reply: Reply)

  /** A tool call: its tool, its arguments as canonical JSON, its `name` argument. */
  datatype Call = Call(tool: string, args: string, name: string)

  datatype Parsed = Answer(text: string) | Failure(reason: string, raw: string) | ToolCall(call: Call)

  datatype Outcome =
    | Invalid(error: string)         // the arguments were refused by validation
    | Refused                        // the gate: the user declined
    | Paused(message: string)        // the gate: no decision in time
    | Failed(error: string)          // the tool raised
    | Returned(result: Content)

  /** The loop's own texts: notes, warnings and answers, and the pieces around something inserted. */
  datatype Canned = OBSERVER_NUDGE | FUZZY_REPEAT_NUDGE | CREATE_VERIFY_NUDGE | FAKE_MARKER_WARNING
    | CUT_OFF_NOTE | STUCK_ANSWER | TOO_LONG_ANSWER
    | MODEL_FAILED | UNREACHABLE | NO_VALID_RESPONSE | REBUILD | STOPPED_REBUILDING
    | VALIDATION_ERROR | DECLINED | TOOL | TOOL_FAILED | OUT_OF_STEPS | STEPS

  /** Everything the loop does not decide. Steps are numbered from 1. */
  datatype World = World(
    say: Canned -> string,
    reply: nat -> Answered,
    parse: Reply -> Parsed,
    outcome: (nat, Call) -> Outcome,
    terminal: Call -> bool,
    echoes: Call -> bool,
    similar: seq<Call> -> bool,
    decimal: nat -> string,
    arrivals: nat -> seq<string>,
    sentinel: nat -> string,
    foreign: (string, set<string>) -> seq<string>,
    request: seq<Message> -> seq<Message>,
    resultMessages: (Reply, Call, Content) -> seq<Message>,
    reprompt: (Reply, string, string) -> seq<Message>)

  function Signature(c: Call): string {
    c.tool + ":" + c.args
  }

  predicate Creates(c: Call) {
    c.tool == "create_tool" || c.tool == "create_skill"
  }

  // ---- the trace ---------------------------------------------------------------------

  datatype Issue = StuckRecreating | StuckRepeating | RepeatNudge | FuzzyNudge | CreateVerify

  datatype Event =
    | Received(text: string)
    | ModelRequest(messages: seq<Message>)
    | ModelDown(error: string)
    | ModelResponse(reply: Reply)
    | Final(answer: Content)
    | ParseError(reason: string, raw: string)
    | GaveUp(reason: string)
    | Reprompted(reason: string)
    | ToolCalled(call: Call)
    | Observed(issue: Issue, tool: string, count: nat)
    | Validated(tool: string, ok: bool, error: string)
    | ToolResult(tool: string, ok: bool, result: Content)
    | SteerRejected(ids: seq<string>, tool: string)
    | Steered(text: string, count: nat)
    | PausedAt(message: string)
    | OutOfSteps

  /** How many times an issue was reported. */
  function Tally(events: seq<Event>, issue: Issue): nat {
    if events == [] then 0
    else
      var e := events[|events| - 1];
      Tally(events[..|events| - 1], issue) + (if e.Observed? && e.issue == issue then 1 else 0)
  }

  lemma TallySnoc(events: seq<Event>, e: Event, issue: Issue)
    ensures Tally(events + [e], issue) == Tally(events, issue) + (if e.Observed? && e.issue == issue then 1 else 0)
  {
    assert (events + [e])[..|events|] == events;
  }

  // ---- leak defence --------------------------------------------------------------------

  function ScrubOption(s: Option<string>, nonce: string): Option<string>
    requires nonce != ""
  {
    match s case None => None case Some(t) => Some(Scrub(t, nonce))
  }

  function ScrubArgs(a: CallArgs, nonce: string): CallArgs
    requires nonce != ""
  {
    match a case Raw(t) => Raw(Scrub(t, nonce)) case Structured(_) => a
  }

  function ScrubReply(r: Reply, nonce: string): Reply
    requires nonce != ""
  {
    r.(content := ScrubOption(r.content, nonce), reasoning := ScrubOption(r.reasoning, nonce),
       calls := seq(|r.calls|, k requires 0 <= k < |r.calls| => ScrubArgs(r.calls[k], nonce)))
  }

  // ---- free of the nonce -----------------------------------------------------------------

  ghost predicate FreeOption(s: Option<string>, nonce: string) {
    s.Some? ==> FreeText(s.value, nonce)
  }

  ghost predicate FreeContent(c: Content, nonce: string) {
    match c case Plain(t) => FreeText(t, nonce) case Other(ss) => FreeTexts(ss, nonce)
  }

  ghost predicate FreeMessages(ms: seq<Message>, nonce: string) {
    forall k :: 0 <= k < |ms| ==> FreeMessage(ms[k], nonce)
  }

  ghost predicate FreeArgs(a: CallArgs, nonce: string) {
    match a case Raw(t) => FreeText(t, nonce) case Structured(ss) => FreeTexts(ss, nonce)
  }

  ghost predicate FreeReply(r: Reply, nonce: string) {
    && FreeOption(r.content, nonce) && FreeOption(r.reasoning, nonce) && FreeTexts(r.others, nonce)
    && forall k :: 0 <= k < |r.calls| ==> FreeArgs(r.calls[k], nonce)
  }

  ghost predicate FreeCall(c: Call, nonce: string) {
    FreeText(c.tool, nonce) && FreeText(c.args, nonce) && FreeText(c.name, nonce)
  }

  ghost predicate FreeParsed(p: Parsed, nonce: string) {
    match p
    case Answer(t) => FreeText(t, nonce)
    case Failure(reason, raw) => FreeText(reason, nonce) && FreeText(raw, nonce)
    case ToolCall(c) => FreeCall(c, nonce)
  }

  ghost predicate FreeOutcome(o: Outcome, nonce: string) {
    match o
    case Invalid(e) => FreeText(e, nonce)
    case Refused => true
    case Paused(m) => FreeText(m, nonce)
    case Failed(e) => FreeText(e, nonce)
    case Returned(r) => FreeContent(r, nonce)
  }

  ghost predicate FreeEvent(e: Event, nonce: string) {
    match e
    case Received(t) => FreeText(t, nonce)
    case ModelRequest(ms) => FreeMessages(ms, nonce)
    case ModelDown(t) => FreeText(t, nonce)
    case ModelResponse(r) => FreeReply(r, nonce)
    case Final(a) => FreeContent(a, nonce)
    case ParseError(reason, raw) => FreeText(reason, nonce) && FreeText(raw, nonce)
    case GaveUp(t) => FreeText(t, nonce)
    case Reprompted(t) => FreeText(t, nonce)
    case ToolCalled(c) => FreeCall(c, nonce)
    case Observed(_, tool, _) => FreeText(tool, nonce)
    case Validated(tool, _, t) => FreeText(tool, nonce) && FreeText(t, nonce)
    case ToolResult(tool, _, r) => FreeText(tool, nonce) && FreeContent(r, nonce)
    case SteerRejected(ids, tool) => FreeTexts(ids, nonce) && FreeText(tool, nonce)
    case Steered(t, _) => FreeText(t, nonce)
    case PausedAt(t) => FreeText(t, nonce)
    case OutOfSteps => true
  }

  ghost predicate FreeEvents(es: seq<Event>, nonce: string) {
    forall k :: 0 <= k < |es| ==> FreeEvent(es[k], nonce)
  }

  /** A text of the loop's own: without the nonce, and no hex digit at either end. */
  ghost predicate OwnText(s: string, nonce: string) {
    FreeText(s, nonce) && s != "" && !IsHex(s[0]) && !IsHex(s[|s| - 1])
  }

  /** The model can carry the nonce only in fields the leak defence covers. */
  ghost predicate OnlyInScrubbed(a: Answered, nonce: string) {
    match a
    case Down(e) => FreeText(e, nonce)
    case Said(r) =>
      && FreeTexts(r.others, nonce)
      && forall k :: 0 <= k < |r.calls| && r.calls[k].Structured? ==> FreeTexts(r.calls[k].strings, nonce)
  }

  /** The nonce is fresh: no tool, user or fixed text contains it, and what is computed from texts
      without it does not contain it either. */
  ghost predicate Fresh(w: World, nonce: string) {
    && Token(nonce)
    && (forall c {:trigger w.say(c)} :: OwnText(w.say(c), nonce))
    && (forall n {:trigger w.reply(n)} :: OnlyInScrubbed(w.reply(n), nonce))
    && (forall r {:trigger w.parse(r)} :: FreeReply(r, nonce) ==> FreeParsed(w.parse(r), nonce))
    && (forall n, c {:trigger w.outcome(n, c)} :: FreeCall(c, nonce) ==> FreeOutcome(w.outcome(n, c), nonce))
    && (forall n {:trigger w.decimal(n)} :: FreeText(w.decimal(n), nonce))
    && (forall n {:trigger w.arrivals(n)} :: FreeTexts(w.arrivals(n), nonce))
    && (forall n {:trigger w.sentinel(n)} :: Token(w.sentinel(n)) && w.sentinel(n) != nonce)
    && (forall t, slots {:trigger w.foreign(t, slots)} :: FreeText(t, nonce) ==> FreeTexts(w.foreign(t, slots), nonce))
    && (forall ms {:trigger w.request(ms)} :: FreeMessages(ms, nonce) ==> FreeMessages(w.request(ms), nonce))
    && (forall r, c, v {:trigger w.resultMessages(r, c, v)} :: FreeReply(r, nonce) && FreeCall(c, nonce) && FreeContent(v, nonce)
          ==> FreeMessages(w.resultMessages(r, c, v), nonce))
    && (forall r, a, b {:trigger w.reprompt(r, a, b)} :: FreeReply(r, nonce) && FreeText(a, nonce) && FreeText(b, nonce)
          ==> FreeMessages(w.reprompt(r, a, b), nonce))
  }

  /** Scrubbing takes the nonce out of the content, the reasoning and the arguments, and leaves all else, and
      what does not hold it, as it was. */
  lemma ScrubKeeps(r: Reply, nonce: string, k: nat)
    requires nonce != ""
    ensures var r' := ScrubReply(r, nonce);
            && r'.truncated == r.truncated && r'.others == r.others && |r'.calls| == |r.calls|
            && (r'.content.None? <==> r.content.None?) && (r'.reasoning.None? <==> r.reasoning.None?)
            && (r.content.Some? ==> r'.content.value == Replace(r.content.value, nonce, "[steer-id redacted]"))
            && (r.reasoning.Some? ==> r'.reasoning.value == Replace(r.reasoning.value, nonce, "[steer-id redacted]"))
            && (k < |r.calls| && r.calls[k].Structured? ==> r'.calls[k] == r.calls[k])
            && (k < |r.calls| && r.calls[k].Raw? ==>
                  r'.calls[k] == Raw(Replace(r.calls[k].text, nonce, "[steer-id redacted]")))
    ensures FreeReply(r, nonce) ==> ScrubReply(r, nonce) == r
  {
    if FreeReply(r, nonce) {
      if r.content.Some? { ReplaceAbsent(r.content.value, nonce, REDACTED); }
      if r.reasoning.Some? { ReplaceAbsent(r.reasoning.value, nonce, REDACTED); }
      forall i | 0 <= i < |r.calls| ensures ScrubArgs(r.calls[i], nonce) == r.calls[i] {
        assert FreeArgs(r.calls[i], nonce);
        if r.calls[i].Raw? { ReplaceAbsent(r.calls[i].text, nonce, REDACTED); }
      }
      assert ScrubReply(r, nonce).calls == r.calls;
    }
  }

  lemma ScrubbedIsFree(r: Reply, nonce: string)
    requires Token(nonce) && OnlyInScrubbed(Said(r), nonce)
    ensures FreeReply(ScrubReply(r, nonce), nonce)
  {
    if r.content.Some? { ScrubRemoves(r.content.value, nonce); }
    if r.reasoning.Some? { ScrubRemoves(r.reasoning.value, nonce); }
    forall k | 0 <= k < |r.calls| ensures FreeArgs(ScrubArgs(r.calls[k], nonce), nonce) {
      if r.calls[k].Raw? { ScrubRemoves(r.calls[k].text, nonce); }
    }
  }

  // ---- putting free texts together -----------------------------------------------------

  /** Texts without the nonce, put together where at least one side of the seam is no hex digit. */
  lemma FreeConcat(a: string, b: string, nonce: string)
    requires Token(nonce) && FreeText(a, nonce) && FreeText(b, nonce)
    requires a == "" || b == "" || !IsHex(a[|a| - 1]) || !IsHex(b[0])
    ensures FreeText(a + b, nonce)
  {
    var s := a + b;
    forall k | 0 <= k <= |s| ensures !At(s, nonce, k) {
      if k >= |a| {
        AtShift(a, b, nonce, k);
      } else if k + 16 <= |a| {
        assert s[k..k + 16] == a[k..k + 16];
        assert !At(a, nonce, k);
      } else if b != "" {
        var q := if IsHex(a[|a| - 1]) then |a| - k else |a| - 1 - k;
        if q < 16 { NotAt(s, nonce, k, q); }
      }
    }
  }

  lemma FreeShort(s: string, nonce: string)
    requires Token(nonce) && |s| < 16
    ensures FreeText(s, nonce)
  {
  }

  lemma FreePrefix(a: string, s: string, nonce: string)
    requires a <= s && FreeText(s, nonce)
    ensures FreeText(a, nonce)
  {
    forall k | 0 <= k <= |a| ensures !At(a, nonce, k) {
      if k + |nonce| <= |a| {
        assert s[k..k + |nonce|] == a[k..k + |nonce|];
        assert !At(s, nonce, k);
      }
    }
  }

  lemma FreeSuffix(s: string, n: nat, nonce: string)
    requires n <= |s| && FreeText(s, nonce)
    ensures FreeText(s[n..], nonce)
  {
    HasSuffix(s, n, nonce);
  }

  lemma FreeStrip(s: string, nonce: string)
    requires FreeText(s, nonce)
    ensures FreeText(Strip(s), nonce) && FreeText(RStrip(s), nonce)
  {
    FreePrefix(RStrip(s), s, nonce);
    var r := RStrip(s);
    FreeSuffix(r, |r| - |LStrip(r)|, nonce);
  }

  /** Something inserted between two texts, seams at characters that are no hex digits. */
  lemma FreeFramed(a: string, x: string, b: string, nonce: string)
    requires Token(nonce) && FreeText(a, nonce) && FreeText(x, nonce) && FreeText(b, nonce)
    requires a != "" && !IsHex(a[|a| - 1]) && (b == "" || !IsHex(b[0]))
    ensures FreeText(a + x + b, nonce)
  {
    FreeConcat(a, x, nonce);
    FreeConcat(a + x, b, nonce);
  }

  lemma {:induction false} FreeJoin(parts: seq<string>, sep: string, nonce: string)
    requires Token(nonce) && FreeTexts(parts, nonce) && (sep == "\n" || sep == "\n\n")
    ensures FreeText(Join(parts, sep), nonce)
    decreases |parts|
  {
    if parts == [] {
      FreeShort("", nonce);
    } else {
      assert FreeText(parts[0], nonce);
      if |parts| > 1 {
        FreeJoin(parts[1..], sep, nonce);
        FreeShort(sep, nonce);
        FreeConcat(parts[0], sep, nonce);
        FreeConcat(parts[0] + sep, Join(parts[1..], sep), nonce);
      }
    }
  }

  /** A block under a sentinel holds the nonce only if its text does. */
  lemma FreeBlock(result: string, body: string, sentinel: string, nonce: string)
    requires Token(nonce) && Token(sentinel) && sentinel != nonce
    requires FreeText(result, nonce) && FreeText(body, nonce)
    ensures FreeText(WithBlock(result, Block(sentinel, body)), nonce)
  {
    FreeToken(sentinel, nonce);
    var open := "<<<USER_STEER id=";
    FreeOpening(nonce);
    FreeShort(">>>", nonce);
    FreeConcat(open, sentinel, nonce);
    FreeConcat(open + sentinel, ">>>", nonce);
    FreeConcat("<<<END_USER_STEER id=", sentinel, nonce);
    FreeConcat("<<<END_USER_STEER id=" + sentinel, ">>>", nonce);
    FreeShort("\n", nonce);
    FreeShort("\n\n", nonce);
    FreeConcat(OpenMark(sentinel), "\n", nonce);
    FreeConcat(OpenMark(sentinel) + "\n", body, nonce);
    FreeConcat(OpenMark(sentinel) + "\n" + body, "\n", nonce);
    FreeConcat(OpenMark(sentinel) + "\n" + body + "\n", CloseMark(sentinel), nonce);
    FreeStrip(result, nonce);
    FreeConcat(RStrip(result), "\n\n", nonce);
    FreeConcat(RStrip(result) + "\n\n", Block(sentinel, body), nonce);
  }

  lemma FreeToken(t: string, nonce: string)
    requires Token(nonce) && Token(t) && t != nonce
    ensures FreeText(t, nonce)
  {
    assert t[0..16] == t;
  }

  lemma FreeOpening(nonce: string)
    requires Token(nonce)
    ensures FreeText("<<<USER_STEER id=", nonce) && FreeText("<<<END_USER_STEER id=", nonce)
  {
    var a, b := "<<<USER_STEER id=", "<<<END_USER_STEER id=";
    forall k | 0 <= k <= |a| ensures !At(a, nonce, k) {
      if k <= 1 { NotAt(a, nonce, k, 1 - k); }
    }
    forall k | 0 <= k <= |b| ensures !At(b, nonce, k) {
      if k <= 7 { NotAt(b, nonce, k, 7 - k); }
    }
  }

  /** A tool result with the warning about a foreign marker after it. */
  function Warned(w: World, text: string): string {
    RStrip(text) + "\n\n" + w.say(FAKE_MARKER_WARNING)
  }

  /** What the model is shown of a free result, and what is reported about it, is free. */
  lemma FreeForModel(w: World, n: nat, text: string, slots: set<string>, pending: seq<string>, nonce: string)
    requires Fresh(w, nonce) && FreeText(text, nonce) && FreeTexts(pending, nonce)
    ensures FreeTexts(w.foreign(text, slots), nonce) && FreeText(Warned(w, text), nonce)
    ensures Token(w.sentinel(n)) && w.sentinel(n) != nonce
    ensures FreeText(Join(pending, "\n"), nonce)
    ensures FreeText(WithBlock(text, Block(w.sentinel(n), Join(pending, "\n"))), nonce)
    ensures FreeText(WithBlock(Warned(w, text), Block(w.sentinel(n), Join(pending, "\n"))), nonce)
  {
    hide FreeText;
    hide Block;
    hide WithBlock;
    FreeStrip(text, nonce);
    FreeShort("\n\n", nonce);
    FreeConcat(RStrip(text), "\n\n", nonce);
    FreeConcat(RStrip(text) + "\n\n", w.say(FAKE_MARKER_WARNING), nonce);
    FreeJoin(pending, "\n", nonce);
    FreeBlock(text, Join(pending, "\n"), w.sentinel(n), nonce);
    FreeBlock(Warned(w, text), Join(pending, "\n"), w.sentinel(n), nonce);
  }

  // ---- the answer, with what must reach the user -------------------------------------------

  lemma {:induction false} FreeExtra(answer: string, echoed: seq<string>, nonce: string)
    requires FreeTexts(echoed, nonce)
    ensures FreeTexts(Extra(answer, echoed), nonce)
    decreases |echoed|
  {
    hide FreeText;
    hide Probe;
    hide Strip;
    hide Has;
    if echoed != [] {
      var n := |echoed| - 1;
      FreeExtra(answer, echoed[..n], nonce);
      assert FreeText(echoed[n], nonce);
      FreeStrip(echoed[n], nonce);
    }
  }

  lemma FreeUnechoed(answer: string, echoed: seq<string>, nonce: string)
    requires Token(nonce) && FreeText(answer, nonce) && FreeTexts(echoed, nonce)
    ensures FreeText(Unechoed(answer, echoed), nonce)
  {
    hide FreeText;
    hide Strip;
    hide RStrip;
    var extra := Extra(answer, echoed);
    FreeExtra(answer, echoed, nonce);
    FreeJoin(extra, "\n\n", nonce);
    FreeStrip(answer, nonce);
    FreeShort("\n\n", nonce);
    FreeConcat(RStrip(answer), "\n\n", nonce);
    FreeConcat(RStrip(answer) + "\n\n", Join(extra, "\n\n"), nonce);
    FreeStrip(RStrip(answer) + "\n\n" + Join(extra, "\n\n"), nonce);
  }
}
