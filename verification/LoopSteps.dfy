/** One run of the agent loop as a function of what surrounds it: what each part of a step makes of the
    conversation, the trace, the counters and the notes that wait. */
module LoopSteps {
  import opened Text
  import opened Echo
  import opened Replacing
  import opened Steering
  import opened LoopWorld

  /** The parameters of a run; the last three are its channel's, if it has one. */
  datatype Setup = Setup(w: World, observing: bool, threshold: nat, window: nat,
                         steered: bool, nonce: string, maxChars: nat, maxPending: nat)

  /** What a run writes and keeps; `asked` lists the requests as the model saw them. */
  datatype State = State(conv: seq<Message>, events: seq<Event>, asked: seq<seq<Message>>, echo: seq<string>,
                         failures: nat, counts: map<string, nat>, creates: map<string, nat>, consecutive: nat,
                         createNudged: bool, recent: seq<Call>, fuzzyNudged: bool,
                         pending: seq<string>, slots: set<string>)

  /** How often a tool may be recreated under one name before the run stops. */
  function RecreateLimit(threshold: nat): nat {
    if threshold > 4 then threshold else 4
  }

  function Times(counts: map<string, nat>, key: string): nat {
    if key in counts then counts[key] else 0
  }

  // ---- writing things down -----------------------------------------------------------

  function Emitted(s: State, e: Event): State {
    s.(events := s.events + [e])
  }

  function Stored(s: State, ms: seq<Message>): State {
    s.(conv := s.conv + ms)
  }

  function Note(c: Setup, note: Canned): Message {
    Message("user", Plain(c.w.say(note)), [])
  }

  function Nudged(c: Setup, s: State, note: Canned, issue: Issue, tool: string, count: nat): State {
    Emitted(Stored(s, [Note(c, note)]), Observed(issue, tool, count))
  }

  function Concluded(s: State, answer: Content): State {
    Emitted(Stored(s, [Message("assistant", answer, [])]), Final(answer))
  }

  // ---- notes on their way to the model -------------------------------------------------

  /** The queue after these notes were offered to it one by one. */
  function Queueing(pending: seq<string>, notes: seq<string>, maxChars: nat, maxPending: nat): seq<string> {
    if notes == [] then pending
    else
      var before := Queueing(pending, notes[..|notes| - 1], maxChars, maxPending);
      var note := Strip(notes[|notes| - 1]);
      if 0 < |note| <= maxChars && |before| < maxPending then before + [note] else before
  }

  /** A result with a warning after it if it holds a marker that is not the run's own. */
  function Checked(w: World, text: string, slots: set<string>): string {
    if w.foreign(text, slots) == [] then text else Warned(w, text)
  }

  /** A result with the waiting notes after it, in one block. */
  function Shown(text: string, pending: seq<string>, sentinel: string): string {
    if pending == [] then text else WithBlock(text, Block(sentinel, Join(pending, "\n")))
  }

  /** A result as the model sees it; only a string takes notes. */
  function SeenAs(w: World, n: nat, result: Content, pending: seq<string>, slots: set<string>): Content {
    match result
    case Other(_) => result
    case Plain(text) => Plain(Shown(Checked(w, text, slots), pending, w.sentinel(n)))
  }

  /** The notes sent since the last tool result are queued. */
  function Arrived(c: Setup, s: State, n: nat): State {
    if c.steered then s.(pending := Queueing(s.pending, c.w.arrivals(n), c.maxChars, c.maxPending)) else s
  }

  function Seen(c: Setup, s: State, n: nat, result: Content): Content {
    if c.steered then SeenAs(c.w, n, result, s.pending, s.slots) else result
  }

  /** A result is prepared for the model: foreign markers are reported, the waiting notes are taken. */
  function Taken(c: Setup, s: State, n: nat, tool: string, result: Content): State {
    if !c.steered || result.Other? then s
    else
      var bogus := c.w.foreign(result.text, s.slots);
      var s1 := if bogus == [] then s else Emitted(s, SteerRejected(bogus, tool));
      if s.pending == [] then s1
      else Emitted(s1, Steered(Join(s.pending, "\n"), |s.pending|)).(pending := [], slots := s.slots + {c.w.sentinel(n)})
  }

  /** A result goes to the model: the notes that came meanwhile land on it. */
  function Landing(c: Setup, s: State, n: nat, reply: Reply, call: Call, result: Content): State {
    var s1 := Arrived(c, s, n);
    Stored(Taken(c, s1, n, call.tool, result), c.w.resultMessages(reply, call, Seen(c, s1, n, result)))
  }

  // ---- the observers --------------------------------------------------------------------

  function RepeatChecked(c: Setup, s: State, call: Call): State {
    if c.observing && Times(s.counts, Signature(call)) == c.threshold
    then Nudged(c, s, OBSERVER_NUDGE, RepeatNudge, call.tool, c.threshold) else s
  }

  /** The last `window` calls; the slice that would take none of them takes all. */
  function LastCalls(window: nat, calls: seq<Call>): (last: seq<Call>)
    requires window <= |calls|
    ensures |last| == if window == 0 then |calls| else window
  {
    if window == 0 then calls else calls[|calls| - window..]
  }

  /** Are the last calls, two or more, all of this tool, and alike? */
  predicate Similar(c: Setup, calls: seq<Call>, call: Call) {
    && c.observing && c.window <= |calls| && |LastCalls(c.window, calls)| >= 2 && c.w.similar(LastCalls(c.window, calls))
    && forall k :: |calls| - |LastCalls(c.window, calls)| <= k < |calls| ==> calls[k].tool == call.tool
  }

  function FuzzyChecked(c: Setup, s: State, call: Call): State {
    var s1 := s.(recent := s.recent + [call]);
    if !s.fuzzyNudged && Similar(c, s1.recent, call)
    then Nudged(c, s1.(fuzzyNudged := true), FUZZY_REPEAT_NUDGE, FuzzyNudge, call.tool, c.window) else s1
  }

  function CreateChecked(c: Setup, s: State, call: Call): State {
    var s1 := s.(consecutive := if Creates(call) then s.consecutive + 1 else 0);
    if c.observing && s1.consecutive >= 3 && !s.createNudged
    then Nudged(c, s1.(createNudged := true), CREATE_VERIFY_NUDGE, CreateVerify, call.tool, s1.consecutive) else s1
  }

  // ---- a tool call ------------------------------------------------------------------------

  /** What became of a part of a step: the state after it, and the run's answer if it ended the run. */
  datatype Turn = Turn(state: State, done: Option<Content>)

  /** A refusal before the tool ran. */
  function NotRun(c: Setup, s: State, n: nat, reply: Reply, call: Call, text: string): State {
    Emitted(Landing(c, s, n, reply, call, Plain(text)), ToolResult(call.tool, false, Plain(text)))
  }

  /** A tool ran and its result goes back to the model. */
  function Reported(c: Setup, s: State, n: nat, reply: Reply, call: Call, result: Content): State {
    CreateChecked(c, RepeatChecked(c, Landing(c, s, n, reply, call, result), call), call)
  }

  function Kept(c: Setup, s: State, call: Call, result: Content, ok: bool): State {
    if ok && c.w.echoes(call) && result.Plain? then s.(echo := s.echo + [result.text]) else s
  }

  /** The tool ran, or tried to. */
  function Finished(c: Setup, s: State, n: nat, reply: Reply, call: Call, result: Content, ok: bool): Turn {
    var s1 := Kept(c, Emitted(s, ToolResult(call.tool, ok, result)), call, result, ok);
    if c.w.terminal(call) then Turn(Concluded(s1, result), Some(result))
    else Turn(Reported(c, s1, n, reply, call, result), None)
  }

  /** What a tool that raised is reported as. */
  function FailureText(w: World, tool: string, error: string): string {
    w.say(TOOL) + tool + (w.say(TOOL_FAILED) + error + "")
  }

  function InvalidText(w: World, error: string): string {
    w.say(VALIDATION_ERROR) + error + ""
  }

  function RefusedText(w: World, tool: string): string {
    w.say(DECLINED) + tool + "'."
  }

  function ValidatedAs(call: Call, outcome: Outcome): Event {
    Validated(call.tool, !outcome.Invalid?, if outcome.Invalid? then outcome.error else "")
  }

  /** What validation, the gate and the tool made of a call. */
  function Settled(c: Setup, s: State, n: nat, reply: Reply, call: Call, outcome: Outcome): Turn {
    match outcome
    case Invalid(error) => Turn(RepeatChecked(c, NotRun(c, s, n, reply, call, InvalidText(c.w, error)), call), None)
    case Refused => Turn(NotRun(c, s, n, reply, call, RefusedText(c.w, call.tool)), None)
    case Paused(message) =>
      Turn(Emitted(Stored(s, [Message("assistant", Plain(message), [])]), PausedAt(message)), Some(Plain(message)))
    case Failed(error) => Finished(c, s, n, reply, call, Plain(FailureText(c.w, call.tool, error)), false)
    case Returned(result) => Finished(c, s, n, reply, call, result, true)
  }

  /** A counted call: the soft nudge, validation, the gate, the tool. */
  function Executed(c: Setup, s: State, n: nat, reply: Reply, call: Call): Turn {
    var outcome := c.w.outcome(n, call);
    Settled(c, Emitted(FuzzyChecked(c, s, call), ValidatedAs(call, outcome)), n, reply, call, outcome)
  }

  function CreateKey(call: Call): string {
    call.tool + "#" + call.name
  }

  /** Is this a create that counts against its name? */
  predicate Building(c: Setup, call: Call) {
    c.observing && Creates(call) && call.name != ""
  }

  function Built(c: Setup, s: State, call: Call): State {
    if Building(c, call) then s.(creates := s.creates[CreateKey(call) := Times(s.creates, CreateKey(call)) + 1]) else s
  }

  predicate Recreating(c: Setup, s: State, call: Call) {
    Building(c, call) && Times(s.creates, CreateKey(call)) >= RecreateLimit(c.threshold)
  }

  predicate Repeating(c: Setup, s: State, call: Call) {
    c.observing && Times(s.counts, Signature(call)) >= c.threshold
  }

  function Counted(s: State, call: Call): State {
    s.(counts := s.counts[Signature(call) := Times(s.counts, Signature(call)) + 1])
  }

  function RebuildText(w: World, name: string): string {
    w.say(REBUILD) + name + w.say(STOPPED_REBUILDING)
  }

  function Ended(s: State, answer: string): Turn {
    Turn(Concluded(s, Plain(answer)), Some(Plain(answer)))
  }

  /** A tool call, unless an observer stops the run for it. */
  function Called(c: Setup, s: State, n: nat, reply: Reply, call: Call): Turn {
    var s1 := Built(c, s, call);
    if Recreating(c, s, call) then
      Ended(Emitted(s1, Observed(StuckRecreating, call.tool, Times(s1.creates, CreateKey(call)))), RebuildText(c.w, call.name))
    else
      var s2 := Counted(s1, call);
      if Repeating(c, s, call) then
        Ended(Emitted(s2, Observed(StuckRepeating, call.tool, Times(s2.counts, Signature(call)))), c.w.say(STUCK_ANSWER))
      else Executed(c, s2, n, reply, call)
  }

  // ---- a step ---------------------------------------------------------------------------------

  function GiveUpText(w: World, reply: Reply, reason: string): string {
    if reply.truncated then w.say(TOO_LONG_ANSWER) else w.say(NO_VALID_RESPONSE) + reason + ")"
  }

  function RepromptMessages(c: Setup, reply: Reply, reason: string, raw: string): seq<Message> {
    if reply.truncated then [Note(c, CUT_OFF_NOTE)] else c.w.reprompt(reply, reason, raw)
  }

  /** A response that could not be parsed: one reprompt, then give up. */
  function Failing(c: Setup, s: State, reply: Reply, reason: string, raw: string): Turn {
    var s1 := Emitted(s, ParseError(reason, raw));
    if s.failures >= 1 then Turn(Emitted(s1, GaveUp(reason)), Some(Plain(GiveUpText(c.w, reply, reason))))
    else
      Turn(Emitted(Stored(s1.(failures := s.failures + 1), RepromptMessages(c, reply, reason, raw)), Reprompted(reason)), None)
  }

  function Heard(c: Setup, raw: Reply): Reply {
    if c.steered && c.nonce != "" then ScrubReply(raw, c.nonce) else raw
  }

  function Parsing(c: Setup, s: State, n: nat, reply: Reply): Turn {
    match c.w.parse(reply)
    case Answer(text) => Ended(s, Unechoed(text, s.echo))
    case Failure(reason, raw) => Failing(c, s, reply, reason, raw)
    case ToolCall(call) => Called(c, Emitted(s.(failures := 0), ToolCalled(call)), n, reply, call)
  }

  /** The request is emitted as it is; the model is sent a copy with the nonce in it. */
  function Asked(c: Setup, s: State): State {
    var request := c.w.request(s.conv);
    Emitted(s, ModelRequest(request)).(
      asked := s.asked + [if c.steered then Spliced(request, s.slots, c.nonce) else request])
  }

  function DownText(w: World, error: string): string {
    w.say(UNREACHABLE) + error + ")."
  }

  /** One step: one model call, and what follows from its reply. */
  function Stepped(c: Setup, s: State, n: nat): Turn {
    var s1 := Asked(c, s);
    match c.w.reply(n)
    case Down(error) => Turn(Emitted(s1, ModelDown(c.w.say(MODEL_FAILED) + error + "")), Some(Plain(DownText(c.w, error))))
    case Said(raw) =>
      var reply := Heard(c, raw);
      Parsing(c, Emitted(s1, ModelResponse(reply)), n, reply)
  }

  // ---- a run ------------------------------------------------------------------------------------

  function Started(s: State, userText: string, userContent: Content): State {
    Emitted(Stored(s, [Message("user", userContent, [])]), LoopWorld.Received(userText))
  }

  function RunOutText(w: World, maxSteps: nat): string {
    w.say(OUT_OF_STEPS) + w.decimal(maxSteps) + w.say(STEPS)
  }

  /** Steps n + 1 to maxSteps, or until one ends the run. */
  function Rest(c: Setup, s: State, n: nat, maxSteps: nat): Turn
    decreases maxSteps - n
  {
    if n >= maxSteps then Turn(Emitted(s, OutOfSteps), Some(Plain(RunOutText(c.w, maxSteps))))
    else
      var t := Stepped(c, s, n + 1);
      if t.done.Some? then t else Rest(c, t.state, n + 1, maxSteps)
  }

  /** The whole run, from the user's message to the answer. */
  function Whole(c: Setup, s: State, userText: string, userContent: Content, maxSteps: nat): Turn {
    Rest(c, Started(s, userText, userContent), 0, maxSteps)
  }
}
