/** What a run makes of the model's replies and the tools' outcomes, from the first request to the answer. */
module LoopLaws {
  import opened Text
  import opened Echo
  import opened Steering
  import opened LoopWorld
  import opened LoopSteps

  // ---- what the model is shown of a result ---------------------------------------------

  /** A result text, a warning if there is a foreign marker in it, and all the notes that wait, in one block. */
  lemma SeenIs(c: Setup, s: State, n: nat, text: string)
    requires c.steered
    ensures var warned := if c.w.foreign(text, s.slots) == [] then text
                          else RStrip(text) + "\n\n" + c.w.say(FAKE_MARKER_WARNING);
            var id := c.w.sentinel(n);
            var block := "<<<USER_STEER id=" + id + ">>>" + "\n" + Join(s.pending, "\n") + "\n" + "<<<END_USER_STEER id=" + id + ">>>";
            Seen(c, s, n, Plain(text)) == Plain(
              if s.pending == [] then warned
              else if AllSpace(warned) then block
              else RStrip(warned) + "\n\n" + block)
  {
    hide Join;
    hide RStrip;
  }

  // ---- a call ------------------------------------------------------------------------------

  /** What is reported of a call that did not end the run. */
  function ResultOf(w: World, call: Call, outcome: Outcome): Content
    requires !outcome.Paused?
  {
    match outcome
    case Invalid(error) => Plain(w.say(VALIDATION_ERROR) + error)
    case Refused => Plain(w.say(DECLINED) + call.tool + "'.")
    case Failed(error) => Plain(w.say(TOOL) + call.tool + (w.say(TOOL_FAILED) + error))
    case Returned(result) => result
  }

  predicate Runs(outcome: Outcome) {
    outcome.Failed? || outcome.Returned?
  }

  function UserNote(w: World, note: Canned): Message {
    Message("user", Plain(w.say(note)), [])
  }

  predicate Builds(call: Call) {
    call.tool == "create_tool" || call.tool == "create_skill"
  }

  /** The soft nudge is due when the last calls, `window` of them or all for a window of zero, are two or more, of
      one tool, and alike. */
  lemma SimilarIs(c: Setup, calls: seq<Call>, call: Call, rest: seq<Call>, last: seq<Call>)
    requires calls == rest + last && |last| == if c.window == 0 then |calls| else c.window
    ensures Similar(c, calls, call) <==>
            c.observing && |last| >= 2 && c.w.similar(last) && forall k :: 0 <= k < |last| ==> last[k].tool == call.tool
  {
    assert LastCalls(c.window, calls) == last;
    assert forall k :: 0 <= k < |last| ==> last[k] == calls[|rest| + k];
    assert forall k :: |rest| <= k < |calls| ==> calls[k] == last[k - |rest|];
  }

  /** The soft nudge before a call, if it is due. */
  function Before(c: Setup, s: State, call: Call): seq<Message> {
    if !s.fuzzyNudged && Similar(c, s.recent + [call], call) then [UserNote(c.w, FUZZY_REPEAT_NUDGE)] else []
  }

  /** The nudges behind a result: for the call's signature at the threshold, unless the gate refused it; and
      for the third create in a row, if the tool ran. */
  function Behind(c: Setup, s: State, call: Call, outcome: Outcome): seq<Message> {
    (if c.observing && !outcome.Refused? && Times(s.counts, call.tool + ":" + call.args) == c.threshold
     then [UserNote(c.w, OBSERVER_NUDGE)] else []) +
    (if c.observing && Runs(outcome) && Builds(call) && s.consecutive >= 2 && !s.createNudged
     then [UserNote(c.w, CREATE_VERIFY_NUDGE)] else [])
  }

  /** What the parts of a call leave alone. */
  predicate SameCounts(s: State, s': State) {
    && s'.counts == s.counts && s'.consecutive == s.consecutive && s'.createNudged == s.createNudged
    && s'.fuzzyNudged == s.fuzzyNudged && s'.recent == s.recent && s'.creates == s.creates && s'.failures == s.failures
    && s'.asked == s.asked
  }

  predicate SameQueue(s: State, s': State) {
    s'.pending == s.pending && s'.slots == s.slots
  }

  lemma SeenSame(c: Setup, s: State, s': State, n: nat, result: Content)
    requires SameQueue(s, s')
    ensures Seen(c, Arrived(c, s, n), n, result) == Seen(c, Arrived(c, s', n), n, result)
  {
    hide SeenAs;
  }

  lemma LandWrites(c: Setup, s: State, n: nat, reply: Reply, call: Call, result: Content)
    ensures var s' := Landing(c, s, n, reply, call, result);
            && s'.conv == s.conv + c.w.resultMessages(reply, call, Seen(c, Arrived(c, s, n), n, result))
            && SameCounts(s, s') && s'.echo == s.echo
  {
    hide Seen;
    hide Taken;
    hide Queueing;
    TakenKeeps(c, Arrived(c, s, n), n, call.tool, result);
  }

  lemma TakenKeeps(c: Setup, s: State, n: nat, tool: string, result: Content)
    ensures var s' := Taken(c, s, n, tool, result); s'.conv == s.conv && SameCounts(s, s') && s'.echo == s.echo
  {
    if c.steered && result.Plain? {
      var bogus := c.w.foreign(result.text, s.slots);
      var s1 := if bogus == [] then s else Emitted(s, SteerRejected(bogus, tool));
      EmitKeeps(s, SteerRejected(bogus, tool));
      EmitKeeps(s1, Steered(Join(s.pending, "\n"), |s.pending|));
      hide Emitted;
      hide Join;
    }
  }

  lemma EmitKeeps(s: State, e: Event)
    ensures Emitted(s, e) == s.(events := s.events + [e])
    ensures SameCounts(s, Emitted(s, e)) && Emitted(s, e).conv == s.conv && Emitted(s, e).echo == s.echo
    ensures SameQueue(s, Emitted(s, e))
  {
  }

  lemma SoftWrites(c: Setup, s: State, call: Call)
    ensures var s' := FuzzyChecked(c, s, call);
            && s'.conv == s.conv + Before(c, s, call) && SameQueue(s, s') && s'.echo == s.echo
            && SameCounts(s.(fuzzyNudged := s'.fuzzyNudged, recent := s.recent + [call]), s')
  {
    hide Similar;
  }

  /** The nudges of a call that ran, and of one that validation refused. */
  lemma NudgesWrite(c: Setup, s: State, call: Call, outcome: Outcome)
    ensures Runs(outcome) ==>
      CreateChecked(c, RepeatChecked(c, s, call), call).conv == s.conv + Behind(c, s, call, outcome)
    ensures outcome.Invalid? ==> RepeatChecked(c, s, call).conv == s.conv + Behind(c, s, call, outcome)
    ensures outcome.Refused? ==> Behind(c, s, call, outcome) == []
  {
  }

  /** What the nudges leave alone. */
  predicate SameHistory(s: State, s': State) {
    s'.asked == s.asked && s'.failures == s.failures && s'.counts == s.counts && s'.echo == s.echo
  }

  lemma NudgesKeep(c: Setup, s: State, call: Call)
    ensures SameHistory(s, RepeatChecked(c, s, call)) && SameHistory(s, CreateChecked(c, RepeatChecked(c, s, call), call))
  {
  }

  lemma BehindSame(c: Setup, s: State, s': State, call: Call, outcome: Outcome)
    requires s'.counts == s.counts && s'.consecutive == s.consecutive && s'.createNudged == s.createNudged
    ensures Behind(c, s, call, outcome) == Behind(c, s', call, outcome)
  {
  }

  /** The conversation and the answer after a counted call. A result that does not end the run is in the
      conversation, as the model will see it, with the notes that came in the meantime. */
  lemma CallWrites(c: Setup, s: State, n: nat, reply: Reply, call: Call)
    ensures var outcome := c.w.outcome(n, call);
            var t := Executed(c, s, n, reply, call);
            if outcome.Paused? then
              && t.done == Some(Plain(outcome.message))
              && t.state.conv == s.conv + Before(c, s, call) + [Message("assistant", Plain(outcome.message), [])]
            else
              var result := ResultOf(c.w, call, outcome);
              if Runs(outcome) && c.w.terminal(call) then
                t.done == Some(result) && t.state.conv == s.conv + Before(c, s, call) + [Message("assistant", result, [])]
              else
                && t.done == None
                && t.state.conv == s.conv + Before(c, s, call)
                                 + c.w.resultMessages(reply, call, Seen(c, Arrived(c, s, n), n, result))
                                 + Behind(c, s, call, outcome)
  {
    hide Similar;
    hide Seen;
    hide Arrived;
    hide FuzzyChecked;
    hide Before;
    hide Behind;
    hide Landing;
    hide CreateChecked;
    hide RepeatChecked;
    var outcome := c.w.outcome(n, call);
    var s0 := Emitted(FuzzyChecked(c, s, call), ValidatedAs(call, outcome));
    SoftWrites(c, s, call);
    if !outcome.Paused? {
      var result := ResultOf(c.w, call, outcome);
      NoPadding(c.w, call, outcome);
      var s1 := if Runs(outcome) then Kept(c, Emitted(s0, ToolResult(call.tool, outcome.Returned?, result)), call, result, outcome.Returned?) else s0;
      SeenSame(c, s, s1, n, result);
      LandWrites(c, s1, n, reply, call, result);
      var s2 := Landing(c, s1, n, reply, call, result);
      var s3 := if Runs(outcome) then s2 else Emitted(s2, ToolResult(call.tool, false, result));
      NudgesWrite(c, s3, call, outcome);
      BehindSame(c, s, s3, call, outcome);
    }
  }

  lemma NoPadding(w: World, call: Call, outcome: Outcome)
    requires !outcome.Paused?
    ensures ResultOf(w, call, outcome) ==
      match outcome
      case Invalid(error) => Plain(InvalidText(w, error))
      case Refused => Plain(RefusedText(w, call.tool))
      case Failed(error) => Plain(FailureText(w, call.tool, error))
      case Returned(result) => result
  {
  }

  /** Outputs that must reach the user are kept, in order. */
  function Echoed(c: Setup, n: nat, call: Call): seq<string> {
    var outcome := c.w.outcome(n, call);
    if outcome.Returned? && c.w.echoes(call) && outcome.result.Plain? then [outcome.result.text] else []
  }

  lemma CallKeeps(c: Setup, s: State, n: nat, reply: Reply, call: Call)
    ensures var t := Executed(c, s, n, reply, call);
            && t.state.asked == s.asked && t.state.failures == s.failures && t.state.counts == s.counts
            && t.state.echo == s.echo + Echoed(c, n, call)
  {
    hide Similar;
    hide Seen;
    hide Arrived;
    hide FuzzyChecked;
    hide Before;
    hide Landing;
    hide RepeatChecked;
    hide CreateChecked;
    hide ValidatedAs;
    hide ResultOf;
    var outcome := c.w.outcome(n, call);
    var s0 := Emitted(FuzzyChecked(c, s, call), ValidatedAs(call, outcome));
    SoftWrites(c, s, call);
    if !outcome.Paused? {
      var result := ResultOf(c.w, call, outcome);
      NoPadding(c.w, call, outcome);
      var s1 := if Runs(outcome) then Kept(c, Emitted(s0, ToolResult(call.tool, outcome.Returned?, result)), call, result, outcome.Returned?) else s0;
      LandWrites(c, s1, n, reply, call, result);
      var s2 := Landing(c, s1, n, reply, call, result);
      NudgesKeep(c, if Runs(outcome) then s2 else Emitted(s2, ToolResult(call.tool, false, result)), call);
    }
  }

  /** The counters: every call is remembered, creates in a row are counted among the calls that ran and did not
      end the run, and each of the two nudges is remembered once it was given. */
  lemma CountersMove(c: Setup, s: State, n: nat, reply: Reply, call: Call)
    ensures var t, outcome := Executed(c, s, n, reply, call), c.w.outcome(n, call);
            var reported := Runs(outcome) && !c.w.terminal(call);
            && t.state.recent == s.recent + [call] && t.state.creates == s.creates
            && (t.state.fuzzyNudged <==> s.fuzzyNudged || Before(c, s, call) != [])
            && t.state.consecutive == (if !reported then s.consecutive else if Builds(call) then s.consecutive + 1 else 0)
            && (t.state.createNudged <==> s.createNudged || (reported && c.observing && Builds(call) && s.consecutive >= 2))
  {
    hide Similar;
    hide Seen;
    hide Arrived;
    hide Landing;
    hide FuzzyChecked;
    hide ValidatedAs;
    hide ResultOf;
    hide RepeatChecked;
    var outcome := c.w.outcome(n, call);
    var s0 := Emitted(FuzzyChecked(c, s, call), ValidatedAs(call, outcome));
    SoftWrites(c, s, call);
    SoftRemembers(c, s, call);
    if !outcome.Paused? {
      var result := ResultOf(c.w, call, outcome);
      NoPadding(c.w, call, outcome);
      var s1 := if Runs(outcome) then Kept(c, Emitted(s0, ToolResult(call.tool, outcome.Returned?, result)), call, result, outcome.Returned?) else s0;
      LandWrites(c, s1, n, reply, call, result);
      var s2 := Landing(c, s1, n, reply, call, result);
      RepeatRemembers(c, s2, call);
      RepeatRemembers(c, Emitted(s2, ToolResult(call.tool, false, result)), call);
    }
  }

  lemma SoftRemembers(c: Setup, s: State, call: Call)
    ensures FuzzyChecked(c, s, call).fuzzyNudged <==> s.fuzzyNudged || Before(c, s, call) != []
  {
    hide Similar;
  }

  lemma RepeatRemembers(c: Setup, s: State, call: Call)
    ensures SameCounts(s, RepeatChecked(c, s, call))
  {
  }

  // ---- a step --------------------------------------------------------------------------------

  /** Has this tool or skill been built under its name too often, four times or `threshold` times? */
  predicate BuiltTooOften(c: Setup, s: State, call: Call) {
    var built := Times(s.creates, call.tool + "#" + call.name) + 1;
    && c.observing && (call.tool == "create_tool" || call.tool == "create_skill") && call.name != ""
    && built > c.threshold && built > 4
  }

  predicate CalledTooOften(c: Setup, s: State, call: Call) {
    c.observing && Times(s.counts, call.tool + ":" + call.args) + 1 > c.threshold
  }

  function AnswerOf(text: string): seq<Message> {
    [Message("assistant", Plain(text), [])]
  }

  /** A call that no observer stops is counted, and then made. */
  function CountedOnce(s: State, call: Call): State {
    var sig := call.tool + ":" + call.args;
    s.(failures := 0, counts := s.counts[sig := Times(s.counts, sig) + 1])
  }

  /** What a tool call writes: a stop of one of the observers, or what the call itself writes. */
  ghost predicate CallTold(c: Setup, s: State, n: nat, reply: Reply, call: Call, t: Turn) {
    if BuiltTooOften(c, s, call) then
      var text := c.w.say(REBUILD) + call.name + c.w.say(STOPPED_REBUILDING);
      t.done == Some(Plain(text)) && t.state.conv == s.conv + AnswerOf(text) && t.state.echo == s.echo
    else if CalledTooOften(c, s, call) then
      var text := c.w.say(STUCK_ANSWER);
      t.done == Some(Plain(text)) && t.state.conv == s.conv + AnswerOf(text) && t.state.echo == s.echo
    else
      var outcome, s1 := c.w.outcome(n, call), CountedOnce(s, call);
      && t.state.echo == s.echo + Echoed(c, n, call)
      && if outcome.Paused? then
           t.done == Some(Plain(outcome.message)) && t.state.conv == s.conv + Before(c, s1, call) + AnswerOf(outcome.message)
         else
           var result := ResultOf(c.w, call, outcome);
           if Runs(outcome) && c.w.terminal(call) then
             && t.done == Some(result)
             && t.state.conv == s.conv + Before(c, s1, call) + [Message("assistant", result, [])]
           else
             && t.done == None
             && t.state.conv == s.conv + Before(c, s1, call)
                              + c.w.resultMessages(reply, call, Seen(c, Arrived(c, s1, n), n, result))
                              + Behind(c, s1, call, outcome)
  }

  /** What a step writes, and whether and with what answer it ends the run. */
  ghost predicate StepTold(c: Setup, s: State, n: nat, t: Turn) {
    match c.w.reply(n)
    case Down(error) =>
      t.done == Some(Plain(c.w.say(UNREACHABLE) + error + ").")) && t.state.conv == s.conv && t.state.echo == s.echo
    case Said(raw) =>
      var reply := Heard(c, raw);
      match c.w.parse(reply)
      case Answer(text) =>
        var answer := Unechoed(text, s.echo);
        t.done == Some(Plain(answer)) && t.state.conv == s.conv + AnswerOf(answer) && t.state.echo == s.echo
      case Failure(reason, raw') =>
        && t.state.echo == s.echo
        && if s.failures >= 1 then
             && t.state.conv == s.conv
             && t.done == Some(Plain(if reply.truncated then c.w.say(TOO_LONG_ANSWER) else c.w.say(NO_VALID_RESPONSE) + reason + ")"))
           else
             && t.done == None && t.state.failures == s.failures + 1
             && t.state.conv == s.conv + if reply.truncated then [UserNote(c.w, CUT_OFF_NOTE)] else c.w.reprompt(reply, reason, raw')
      case ToolCall(call) => CallTold(c, s, n, reply, call, t)
  }

  /** The calls made, and where they stand, are all that the observers look at. */
  lemma MadeFrom(c: Setup, s: State, s': State, call: Call, n: nat, outcome: Outcome)
    requires s' == s.(counts := s'.counts, creates := s'.creates, failures := s'.failures, events := s'.events, asked := s'.asked)
    ensures Before(c, s, call) == Before(c, s', call)
    ensures !outcome.Paused? ==> Seen(c, Arrived(c, s, n), n, ResultOf(c.w, call, outcome)) == Seen(c, Arrived(c, s', n), n, ResultOf(c.w, call, outcome))
    ensures s'.counts == s.counts ==> Behind(c, s, call, outcome) == Behind(c, s', call, outcome)
  {
    hide SeenAs;
    hide Similar;
  }

  lemma StopsAre(c: Setup, s: State, s0: State, call: Call)
    requires s0.creates == s.creates && s0.counts == s.counts
    ensures Recreating(c, s0, call) <==> BuiltTooOften(c, s, call)
    ensures Repeating(c, s0, call) <==> CalledTooOften(c, s, call)
  {
    assert Signature(call) == call.tool + ":" + call.args;
  }

  lemma CallTells(c: Setup, s: State, s0: State, n: nat, reply: Reply, call: Call)
    requires s0 == s.(failures := 0, events := s0.events, asked := s0.asked)
    ensures CallTold(c, s, n, reply, call, Called(c, s0, n, reply, call))
    ensures Called(c, s0, n, reply, call).state.asked == s0.asked
  {
    hide Executed;
    hide Before;
    hide Behind;
    hide Seen;
    hide Arrived;
    hide ResultOf;
    hide Echoed;
    StopsAre(c, s, s0, call);
    hide Recreating;
    hide Repeating;
    hide BuiltTooOften;
    hide CalledTooOften;
    hide Times;
    var s2, s1, outcome := LoopSteps.Counted(Built(c, s0, call), call), CountedOnce(s, call), c.w.outcome(n, call);
    assert Signature(call) == call.tool + ":" + call.args;
    MadeFrom(c, s1, s2, call, n, outcome);
    CallWrites(c, s2, n, reply, call);
    CallKeeps(c, s2, n, reply, call);
  }

  /** Every step does what it is told to have done, for every world, and asks the model once, with all that
      is in the conversation. */
  lemma StepTells(c: Setup, s: State, n: nat)
    ensures StepTold(c, s, n, Stepped(c, s, n))
    ensures var request := c.w.request(s.conv);
            Stepped(c, s, n).state.asked == s.asked + [if c.steered then Spliced(request, s.slots, c.nonce) else request]
  {
    hide Called;
    hide CallTold;
    hide Unechoed;
    if c.w.reply(n).Said? {
      var reply := Heard(c, c.w.reply(n).reply);
      if c.w.parse(reply).ToolCall? {
        var s0 := Emitted(Asked(c, s), ModelResponse(reply));
        CallTells(c, s, Emitted(s0.(failures := 0), ToolCalled(c.w.parse(reply).call)), n, reply, c.w.parse(reply).call);
      }
    }
  }

  // ---- a run ---------------------------------------------------------------------------------

  /** The state after k steps, if none of them ends the run. */
  function After(c: Setup, s: State, k: nat): State {
    if k == 0 then s else Stepped(c, After(c, s, k - 1), k).state
  }

  predicate GoesOn(c: Setup, s: State, k: nat) {
    k == 0 || (GoesOn(c, s, k - 1) && Stepped(c, After(c, s, k - 1), k).done == None)
  }

  lemma {:induction false} RestFrom(c: Setup, s: State, k: nat, maxSteps: nat)
    requires k <= maxSteps && GoesOn(c, s, k)
    ensures Rest(c, s, 0, maxSteps) == Rest(c, After(c, s, k), k, maxSteps)
    decreases k
  {
    hide Stepped;
    if k > 0 { RestFrom(c, s, k - 1, maxSteps); }
  }

  lemma StepGrows(c: Setup, s: State, n: nat)
    ensures s.conv <= Stepped(c, s, n).state.conv
  {
    hide Stepped;
    hide Before;
    hide Behind;
    hide Seen;
    hide Arrived;
    hide ResultOf;
    hide Unechoed;
    StepTells(c, s, n);
  }

  lemma {:induction false} RestGrows(c: Setup, s: State, n: nat, maxSteps: nat)
    ensures s.conv <= Rest(c, s, n, maxSteps).state.conv
    decreases maxSteps - n
  {
    hide Stepped;
    if n < maxSteps {
      StepGrows(c, s, n + 1);
      RestGrows(c, Stepped(c, s, n + 1).state, n + 1, maxSteps);
    }
  }

  lemma {:induction false} AskedOften(c: Setup, s: State, k: nat)
    ensures |After(c, s, k).asked| == |s.asked| + k
    decreases k
  {
    hide Stepped;
    if k > 0 {
      AskedOften(c, s, k - 1);
      StepTells(c, After(c, s, k - 1), k);
    }
  }

  /** What the steps of a run write is all there in the end, in order; and the request of every step is made
      of everything that was written before it. */
  lemma StepReachesModel(c: Setup, s: State, k: nat, maxSteps: nat)
    requires k < maxSteps && GoesOn(c, s, k)
    ensures StepTold(c, After(c, s, k), k + 1, Stepped(c, After(c, s, k), k + 1))
    ensures var request := c.w.request(After(c, s, k).conv);
            && |After(c, s, k + 1).asked| == |s.asked| + k + 1
            && After(c, s, k + 1).asked[|s.asked| + k] == if c.steered then Spliced(request, After(c, s, k).slots, c.nonce) else request
    ensures After(c, s, k + 1).conv <= Rest(c, s, 0, maxSteps).state.conv
  {
    hide Stepped;
    hide StepTold;
    StepTells(c, After(c, s, k), k + 1);
    AskedOften(c, s, k);
    RestFrom(c, s, k, maxSteps);
    if Stepped(c, After(c, s, k), k + 1).done == None {
      RestFrom(c, s, k + 1, maxSteps);
      RestGrows(c, After(c, s, k + 1), k + 1, maxSteps);
    }
  }

  /** A run answers at the first step that ends it, with that step's answer, or after the last one. */
  lemma {:induction false} RunAnswers(c: Setup, s: State, n: nat, maxSteps: nat) returns (k: nat)
    requires n <= maxSteps && GoesOn(c, s, n)
    ensures n <= k <= maxSteps && GoesOn(c, s, k)
    ensures k < maxSteps ==> Stepped(c, After(c, s, k), k + 1).done.Some?
                             && Rest(c, s, 0, maxSteps) == Stepped(c, After(c, s, k), k + 1)
    ensures k == maxSteps ==>
      && Rest(c, s, 0, maxSteps).done == Some(Plain(c.w.say(OUT_OF_STEPS) + c.w.decimal(maxSteps) + c.w.say(STEPS)))
      && Rest(c, s, 0, maxSteps).state.conv == After(c, s, maxSteps).conv
    decreases maxSteps - n
  {
    hide Stepped;
    RestFrom(c, s, n, maxSteps);
    if n == maxSteps || Stepped(c, After(c, s, n), n + 1).done.Some? {
      k := n;
    } else {
      k := RunAnswers(c, s, n + 1, maxSteps);
    }
  }

  /** The outputs of the first k steps that must reach the user. */
  function OutputsOf(c: Setup, s: State, k: nat): seq<string> {
    if k == 0 then []
    else OutputsOf(c, s, k - 1) + match c.w.reply(k)
                                  case Down(_) => []
                                  case Said(raw) =>
                                    var before := After(c, s, k - 1);
                                    match c.w.parse(Heard(c, raw))
                                    case ToolCall(call) =>
                                      if BuiltTooOften(c, before, call) || CalledTooOften(c, before, call) then []
                                      else Echoed(c, k, call)
                                    case _ => []
  }

  /** They are all kept for the answer, which shows them if it does not hold them anyway. */
  lemma {:induction false} OutputsKept(c: Setup, s: State, k: nat)
    ensures After(c, s, k).echo == s.echo + OutputsOf(c, s, k)
    decreases k
  {
    hide Stepped;
    hide Before;
    hide Behind;
    hide Seen;
    hide Arrived;
    hide ResultOf;
    hide Unechoed;
    hide Echoed;
    hide BuiltTooOften;
    hide CalledTooOften;
    if k > 0 {
      OutputsKept(c, s, k - 1);
      StepTells(c, After(c, s, k - 1), k);
    }
  }
}
