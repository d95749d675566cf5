/** The agent loop: one run, from the user's message to the answer. */
module RunLoop {
  import opened Text
  import opened Echo
  import opened Replacing
  import opened Steering
  import opened LoopWorld
  import opened LoopSteps

  // ---- what the counters mean --------------------------------------------------------

  /** Between two steps: the counters bound what was run and explain what was nudged. */
  ghost predicate Repeats(observing: bool, threshold: nat, counts: map<string, nat>, ran: multiset<string>,
                          nudged: multiset<string>, refused: set<(string, nat)>) {
    && (forall s :: ran[s] <= Times(counts, s))
    && (observing ==> forall s :: Times(counts, s) <= threshold)
    && (forall s :: nudged[s] <= 1)
    && (forall s :: Times(counts, s) < threshold ==> nudged[s] == 0)
    && (observing && threshold >= 1 ==>
          forall s :: Times(counts, s) == threshold ==> nudged[s] == 1 || (s, threshold) in refused)
    && (!observing ==> nudged == multiset{})
  }

  /** In the middle of a step: s0 has just been counted, may still be run, and has not been nudged for
      this count yet. */
  ghost predicate RepeatsBut(observing: bool, threshold: nat, counts: map<string, nat>, ran: multiset<string>,
                             nudged: multiset<string>, refused: set<(string, nat)>, s0: string, toRun: nat) {
    && (forall s :: ran[s] <= Times(counts, s)) && ran[s0] + toRun <= Times(counts, s0)
    && (observing ==> forall s :: Times(counts, s) <= threshold)
    && (forall s :: nudged[s] <= 1)
    && (forall s :: Times(counts, s) < threshold || s == s0 ==> nudged[s] == 0)
    && (observing && threshold >= 1 ==>
          forall s :: s != s0 && Times(counts, s) == threshold ==> nudged[s] == 1 || (s, threshold) in refused)
    && (!observing ==> nudged == multiset{})
  }

  /** The trace agrees: one event per nudge, and no stop for repeating so far. */
  ghost predicate Nudges(events: seq<Event>, fuzzyNudged: bool, createNudged: bool, nudged: multiset<string>) {
    && Tally(events, FuzzyNudge) == (if fuzzyNudged then 1 else 0)
    && Tally(events, CreateVerify) == (if createNudged then 1 else 0)
    && Tally(events, RepeatNudge) == |nudged|
    && Tally(events, StuckRepeating) == 0
  }

  /** Events that report nothing change nothing about it. */
  lemma NudgesSame(events: seq<Event>, events': seq<Event>, fuzzyNudged: bool, createNudged: bool, nudged: multiset<string>)
    requires Nudges(events, fuzzyNudged, createNudged, nudged) && forall i :: Tally(events', i) == Tally(events, i)
    ensures Nudges(events', fuzzyNudged, createNudged, nudged)
  {
    hide Tally;
  }

  /** No two parse failures in a row were survived. */
  ghost predicate Apart(survived: seq<bool>) {
    forall k :: 0 <= k < |survived| - 1 ==> !(survived[k] && survived[k + 1])
  }

  ghost predicate Failures(parseFailures: nat, survived: seq<bool>) {
    && parseFailures == (if survived != [] && survived[|survived| - 1] then 1 else 0)
    && Apart(survived)
  }

  /** A stop for repeating comes at the first call past the threshold, after a nudge or a refusal. */
  ghost predicate StuckRightly(s: string, n: nat, threshold: nat, nudged: multiset<string>, refused: set<(string, nat)>) {
    n == threshold + 1 && (threshold >= 1 ==> nudged[s] == 1 || (s, threshold) in refused)
  }

  /** What holds of a run at any point. */
  ghost predicate Bounds(observing: bool, threshold: nat, ran: multiset<string>, nudged: multiset<string>,
                         refused: set<(string, nat)>, events: seq<Event>, survived: seq<bool>, stuck: Option<(string, nat)>) {
    && (observing ==> forall s :: ran[s] <= threshold)
    && (forall s :: nudged[s] <= 1)
    && Tally(events, FuzzyNudge) <= 1 && Tally(events, CreateVerify) <= 1
    && Tally(events, RepeatNudge) == |nudged|
    && Tally(events, StuckRepeating) == (if stuck.Some? then 1 else 0)
    && Apart(survived)
    && (stuck.Some? ==> observing && StuckRightly(stuck.value.0, stuck.value.1, threshold, nudged, refused))
  }

  /** One call past the threshold, and one event that says so. */
  lemma StuckBounds(threshold: nat, counts: map<string, nat>, ran: multiset<string>, nudged: multiset<string>,
                    refused: set<(string, nat)>, events: seq<Event>, events': seq<Event>, fuzzy: bool, create: bool,
                    parseFailures: nat, survived: seq<bool>, s: string)
    requires Repeats(true, threshold, counts, ran, nudged, refused) && Times(counts, s) >= threshold
    requires Nudges(events, fuzzy, create, nudged) && Failures(parseFailures, survived)
    requires forall i :: Tally(events', i) == Tally(events, i) + if i == StuckRepeating then 1 else 0
    ensures Bounds(true, threshold, ran, nudged, refused, events', survived, Some((s, Times(counts, s) + 1)))
  {
    hide Tally;
    CountOver(threshold, counts, ran, nudged, refused, s);
  }

  /** Counting one more call of s. */
  lemma CountOne(observing: bool, threshold: nat, counts: map<string, nat>, ran: multiset<string>,
                 nudged: multiset<string>, refused: set<(string, nat)>, s: string)
    requires Repeats(observing, threshold, counts, ran, nudged, refused)
    requires observing ==> Times(counts, s) < threshold
    ensures RepeatsBut(observing, threshold, counts[s := Times(counts, s) + 1], ran, nudged, refused, s, 1)
  {
    var counted := counts[s := Times(counts, s) + 1];
    assert forall t :: Times(counted, t) == if t == s then Times(counts, t) + 1 else Times(counts, t);
    assert !observing ==> nudged[s] == 0;
  }

  /** One call too many. */
  lemma CountOver(threshold: nat, counts: map<string, nat>, ran: multiset<string>,
                  nudged: multiset<string>, refused: set<(string, nat)>, s: string)
    requires Repeats(true, threshold, counts, ran, nudged, refused) && Times(counts, s) >= threshold
    ensures StuckRightly(s, Times(counts, s) + 1, threshold, nudged, refused)
    ensures forall t :: ran[t] <= threshold
  {
  }

  lemma RunOne(observing: bool, threshold: nat, counts: map<string, nat>, ran: multiset<string>,
               nudged: multiset<string>, refused: set<(string, nat)>, s: string)
    requires RepeatsBut(observing, threshold, counts, ran, nudged, refused, s, 1)
    ensures RepeatsBut(observing, threshold, counts, ran + multiset{s}, nudged, refused, s, 0)
  {
  }

  /** The nudge, exactly at the threshold, settles the count. */
  lemma SettleOne(observing: bool, threshold: nat, counts: map<string, nat>, ran: multiset<string>,
                  nudged: multiset<string>, refused: set<(string, nat)>, s: string)
    requires RepeatsBut(observing, threshold, counts, ran, nudged, refused, s, 0)
    ensures Repeats(observing, threshold, counts, ran,
              if observing && Times(counts, s) == threshold then nudged + multiset{s} else nudged, refused)
  {
  }

  /** So does a refusal by the gate. */
  lemma RefuseOne(observing: bool, threshold: nat, counts: map<string, nat>, ran: multiset<string>,
                  nudged: multiset<string>, refused: set<(string, nat)>, s: string)
    requires RepeatsBut(observing, threshold, counts, ran, nudged, refused, s, 1)
    ensures Repeats(observing, threshold, counts, ran, nudged, refused + {(s, Times(counts, s))})
  {
  }

  lemma FailOne(parseFailures: nat, survived: seq<bool>)
    requires Failures(parseFailures, survived)
    ensures parseFailures == 0 ==> Failures(1, survived + [true])
    ensures Failures(0, survived + [false])
    ensures parseFailures <= 1
  {
  }

  /** One run of the loop: the parameters it is given, what it writes, and its counters. */
  class Run {
    const w: World
    const maxSteps: nat
    const observing: bool
    const threshold: nat
    const window: nat
    const channel: SteerChannel?

    var conv: seq<Message>            // the session's conversation
    var events: seq<Event>            // what was emitted
    var echo: seq<string>             // outputs that must reach the user
    var parseFailures: nat
    var counts: map<string, nat>      // signature -> times called
    var creates: map<string, nat>     // tool#name -> times (re)created
    var consecutive: nat              // creates in a row without running a tool
    var createNudged: bool
    var recent: seq<Call>
    var fuzzyNudged: bool

    // what happened, for the contracts
    ghost var asked: seq<seq<Message>>          // the requests, one per model call, as the model saw them
    ghost var ran: multiset<string>             // signatures of the calls a tool really ran
    ghost var nudged: multiset<string>          // signatures nudged for repeating
    ghost var refused: set<(string, nat)>       // (signature, its count) of calls the gate refused
    ghost var stuck: Option<(string, nat)>      // (signature, its count) a stuck_repeating stop was for
    ghost var survived: seq<bool>               // per finished step: was it a parse failure?

    constructor (w: World, maxSteps: nat, observing: bool, threshold: nat, window: nat,
                 channel: SteerChannel?, conversation: seq<Message>)
      ensures this.w == w && this.maxSteps == maxSteps && this.observing == observing
      ensures this.threshold == threshold && this.window == window && this.channel == channel
      ensures Counted() && stuck == None && Bounded()
      ensures State() == LoopSteps.State(conversation, [], [], [], 0, map[], map[], 0, false, [], false,
        if channel == null then [] else channel.pending, if channel == null then {} else channel.slots)
    {
      this.w, this.maxSteps, this.observing, this.threshold, this.window := w, maxSteps, observing, threshold, window;
      this.channel := channel;
      conv, events, echo := conversation, [], [];
      parseFailures, counts, creates, consecutive, createNudged := 0, map[], map[], 0, false;
      recent, fuzzyNudged := [], false;
      asked := [];
      ran, nudged, refused, stuck, survived := multiset{}, multiset{}, {}, None, [];
    }

    // ---- what a run is given, writes and keeps --------------------------------------

    function Given(): Setup {
      if channel == null then Setup(w, observing, threshold, window, false, "", 0, 0)
      else Setup(w, observing, threshold, window, true, channel.nonce, channel.maxChars, channel.maxPending)
    }

    ghost function State(): State
      reads this, channel
    {
      LoopSteps.State(conv, events, asked, echo, parseFailures, counts, creates, consecutive, createNudged, recent, fuzzyNudged,
        if channel == null then [] else channel.pending, if channel == null then {} else channel.slots)
    }

    // ---- the counters and the history --------------------------------------------

    /** Between two steps. */
    ghost predicate Counted()
      reads this`counts, this`ran, this`nudged, this`refused, this`events, this`fuzzyNudged, this`createNudged,
        this`parseFailures, this`survived, this`stuck
    {
      && Repeats(observing, threshold, counts, ran, nudged, refused) && Nudges(events, fuzzyNudged, createNudged, nudged)
      && Failures(parseFailures, survived) && stuck == None
    }

    /** In the middle of a step, just after s0 has been counted. */
    ghost predicate Midway(s0: string, toRun: nat)
      reads this`counts, this`ran, this`nudged, this`refused, this`events, this`fuzzyNudged, this`createNudged,
        this`parseFailures, this`survived, this`stuck
    {
      && RepeatsBut(observing, threshold, counts, ran, nudged, refused, s0, toRun)
      && Nudges(events, fuzzyNudged, createNudged, nudged) && Failures(parseFailures, survived) && stuck == None
    }

    /** At any point, also after the run has ended. */
    ghost predicate Bounded()
      reads this`ran, this`nudged, this`refused, this`events, this`survived, this`stuck
    {
      Bounds(observing, threshold, ran, nudged, refused, events, survived, stuck)
    }

    // ---- the nonce -------------------------------------------------------------------

    /** Nothing stored, emitted or kept for the answer contains the nonce. */
    ghost predicate Silent()
      reads this`conv, this`events, this`echo, channel
    {
      channel != null ==>
        && channel.Valid()
        && FreeMessages(conv, channel.nonce) && FreeEvents(events, channel.nonce)
        && FreeTexts(echo, channel.nonce) && FreeTexts(channel.pending, channel.nonce)
    }

    /** The nonce is fresh for everything outside the loop. */
    ghost predicate Outside() {
      channel != null ==> Fresh(w, channel.nonce)
    }

    // ---- writing things down ---------------------------------------------------------

    method Emit(e: Event)
      requires Silent() && (channel != null ==> FreeEvent(e, channel.nonce))
      modifies this`events
      ensures events == old(events) + [e] && Silent()
      ensures forall i :: Tally(events, i) == Tally(old(events), i) + (if e.Observed? && e.issue == i then 1 else 0)
      ensures State() == Emitted(old(State()), e)
    {
      forall i ensures Tally(events + [e], i) == Tally(events, i) + (if e.Observed? && e.issue == i then 1 else 0) {
        TallySnoc(events, e, i);
      }
      events := events + [e];
    }

    method Store(ms: seq<Message>)
      requires Silent() && (channel != null ==> FreeMessages(ms, channel.nonce))
      modifies this`conv
      ensures conv == old(conv) + ms && Silent()
      ensures State() == Stored(old(State()), ms)
    {
      conv := conv + ms;
    }

    method StoreText(role: string, text: string)
      requires Silent() && |role| < 16 && (channel != null ==> FreeText(text, channel.nonce))
      modifies this`conv
      ensures conv == old(conv) + [Message(role, Plain(text), [])] && Silent()
      ensures State() == Stored(old(State()), [Message(role, Plain(text), [])])
    {
      if channel != null { FreeShort(role, channel.nonce); }
      Store([Message(role, Plain(text), [])]);
    }

    // ---- notes on their way to the model -----------------------------------------------

    /** The notes sent since the last tool result. */
    method Arrive(n: nat)
      requires Silent() && Outside()
      modifies channel
      ensures Silent()
      ensures channel != null ==>
        && channel.pending == Queueing(old(channel.pending), w.arrivals(n), channel.maxChars, channel.maxPending)
        && channel.slots == old(channel.slots)
      ensures State() == Arrived(Given(), old(State()), n)
    {
      hide Strip;
      if channel != null {
        var notes := w.arrivals(n);
        assert FreeTexts(notes, channel.nonce);
        var k := 0;
        while k < |notes|
          invariant Silent() && 0 <= k <= |notes|
          invariant channel.pending == Queueing(old(channel.pending), notes[..k], channel.maxChars, channel.maxPending)
          invariant channel.slots == old(channel.slots)
        {
          FreeStrip(notes[k], channel.nonce);
          assert notes[..k + 1][..k] == notes[..k];
          var _ := channel.Queue(notes[k]);
          k := k + 1;
        }
        assert notes[..|notes|] == notes;
      }
    }

    /** The tool result as the model will see it: a warning if it holds a foreign marker, and the
        waiting notes. */
    method ForModel(n: nat, tool: string, result: Content) returns (out: Content)
      requires Silent() && Outside()
      requires channel != null ==> FreeText(tool, channel.nonce) && FreeContent(result, channel.nonce)
      modifies this`events, channel
      ensures Silent() && (channel != null ==> FreeContent(out, channel.nonce))
      ensures forall i :: Tally(events, i) == Tally(old(events), i)
      ensures channel == null || result.Other? ==> out == result && events == old(events)
      ensures channel != null ==> out == SeenAs(w, n, result, old(channel.pending), old(channel.slots))
      ensures channel != null && result.Plain? ==>
        && channel.pending == []
        && channel.slots == old(channel.slots) + if old(channel.pending) == [] then {} else {w.sentinel(n)}
      ensures State() == Taken(Given(), old(State()), n, tool, result) && out == Seen(Given(), old(State()), n, result)
    {
      hide Fresh;
      hide Token;
      hide FreeText;
      hide Block;
      hide WithBlock;
      if channel == null || result.Other? {
        return result;
      }
      var text := result.text;
      FreeForModel(w, n, text, channel.slots, channel.pending, channel.nonce);
      var bogus := w.foreign(text, channel.slots);
      if bogus != [] {
        Emit(SteerRejected(bogus, tool));
        text := Warned(w, text);
      }
      var attached, landed := channel.Attach(text, w.sentinel(n));
      if landed.Some? {
        Emit(Steered(landed.value.text, landed.value.count));
      }
      return Plain(attached);
    }

    // ---- the observers ------------------------------------------------------------------

    /** A note to the model, and an event that says so. */
    method Nudge(note: Canned, issue: Issue, tool: string, count: nat)
      requires Silent() && Outside() && (channel != null ==> FreeText(tool, channel.nonce))
      modifies this`conv, this`events
      ensures Silent()
      ensures conv == old(conv) + [Note(Given(), note)]
      ensures forall i :: Tally(events, i) == Tally(old(events), i) + if i == issue then 1 else 0
      ensures State() == Nudged(Given(), old(State()), note, issue, tool, count)
    {
      hide FreeText;
      hide Tally;
      hide Fresh;
      FreeFixed(note);
      StoreText("user", w.say(note));
      Emit(Observed(issue, tool, count));
    }

    /** At the repeat threshold, nudge the model to change approach. */
    method RepeatCheck(call: Call, sig: string)
      requires Midway(sig, 0) && Silent() && Outside() && sig in counts
      requires channel != null ==> FreeCall(call, channel.nonce)
      modifies this`conv, this`events, this`nudged
      ensures Counted() && Silent()
      ensures nudged == if observing && counts[sig] == threshold then old(nudged) + multiset{sig} else old(nudged)
      ensures conv == old(conv) + if observing && counts[sig] == threshold then [Note(Given(), OBSERVER_NUDGE)] else []
      ensures sig == Signature(call) ==> State() == RepeatChecked(Given(), old(State()), call)
    {
      hide Repeats;
      hide RepeatsBut;
      hide Failures;
      hide FreeCall;
      hide FreeText;
      hide Fresh;
      hide Tally;
      hide Silent;
      SettleOne(observing, threshold, counts, ran, nudged, refused, sig);
      if observing && counts[sig] == threshold {
        FreeOfCall(call);
        Nudge(OBSERVER_NUDGE, RepeatNudge, call.tool, counts[sig]);
        nudged := nudged + multiset{sig};
      }
    }

    lemma FreeFixed(c: Canned)
      requires Outside()
      ensures channel != null ==> OwnText(w.say(c), channel.nonce)
    {
    }

    lemma FreeOfCall(call: Call)
      requires channel != null ==> FreeCall(call, channel.nonce)
      ensures channel != null ==>
        FreeText(call.tool, channel.nonce) && FreeText(call.args, channel.nonce) && FreeText(call.name, channel.nonce)
    {
    }

    /** Similar calls in a row: one soft nudge per run. */
    method FuzzyCheck(call: Call, ghost sig: string, ghost toRun: nat)
      requires Midway(sig, toRun) && Silent() && Outside()
      requires channel != null ==> FreeCall(call, channel.nonce)
      modifies this`conv, this`events, this`recent, this`fuzzyNudged
      ensures Midway(sig, toRun) && Silent()
      ensures recent == old(recent) + [call]
      ensures fuzzyNudged <==> old(fuzzyNudged) || Similar(Given(), recent, call)
      ensures conv == old(conv) + if fuzzyNudged && !old(fuzzyNudged) then [Note(Given(), FUZZY_REPEAT_NUDGE)] else []
      ensures State() == FuzzyChecked(Given(), old(State()), call)
    {
      hide Nudges;
      hide Nudged;
      hide Stored;
      hide Emitted;
      hide Repeats;
      hide RepeatsBut;
      hide Failures;
      hide FreeCall;
      hide FreeText;
      hide Fresh;
      hide Tally;
      hide Silent;
      hide Similar;
      recent := recent + [call];
      SimilarIs(recent, call);
      if observing && !fuzzyNudged && |recent| >= window {
        var last := if window == 0 then recent else recent[|recent| - window..];
        if (forall k :: 0 <= k < |last| ==> last[k].tool == call.tool) && |last| >= 2 && w.similar(last) {
          FuzzyHit(call, sig, toRun);
        }
      }
    }

    method FuzzyHit(call: Call, ghost sig: string, ghost toRun: nat)
      requires Midway(sig, toRun) && Silent() && Outside() && !fuzzyNudged
      requires channel != null ==> FreeCall(call, channel.nonce)
      modifies this`conv, this`events, this`fuzzyNudged
      ensures Midway(sig, toRun) && Silent() && fuzzyNudged
      ensures conv == old(conv) + [Note(Given(), FUZZY_REPEAT_NUDGE)]
      ensures State() == Nudged(Given(), old(State()).(fuzzyNudged := true), FUZZY_REPEAT_NUDGE, FuzzyNudge, call.tool, window)
    {
      hide RepeatsBut;
      hide Failures;
      hide FreeCall;
      hide FreeText;
      hide Fresh;
      hide Tally;
      hide Silent;
      FreeOfCall(call);
      Nudge(FUZZY_REPEAT_NUDGE, FuzzyNudge, call.tool, window);
      fuzzyNudged := true;
    }

    lemma SimilarIs(calls: seq<Call>, call: Call)
      ensures |calls| < window ==> !Similar(Given(), calls, call)
      ensures |calls| >= window ==>
        var last := LastCalls(window, calls);
        var same := forall k :: 0 <= k < |last| ==> last[k].tool == call.tool;
        Similar(Given(), calls, call) <==> observing && same && |last| >= 2 && w.similar(last)
    {
      if |calls| >= window { SameTools(calls, LastCalls(window, calls), call); }
    }

    static lemma SameTools(calls: seq<Call>, last: seq<Call>, call: Call)
      requires |last| <= |calls| && last == calls[|calls| - |last|..]
      ensures (forall k :: 0 <= k < |last| ==> last[k].tool == call.tool)
         <==> forall k :: |calls| - |last| <= k < |calls| ==> calls[k].tool == call.tool
    {
      assert forall k :: 0 <= k < |last| ==> last[k] == calls[|calls| - |last| + k];
      assert forall k :: |calls| - |last| <= k < |calls| ==> calls[k] == last[k - (|calls| - |last|)];
    }

    /** Building tool after tool without running one: one nudge per run. */
    method CreateCheck(call: Call)
      requires Counted() && Silent() && Outside()
      requires channel != null ==> FreeCall(call, channel.nonce)
      modifies this`conv, this`events, this`consecutive, this`createNudged
      ensures Counted() && Silent()
      ensures consecutive == if Creates(call) then old(consecutive) + 1 else 0
      ensures createNudged <==> old(createNudged) || (observing && consecutive >= 3)
      ensures conv == old(conv) + if createNudged && !old(createNudged) then [Note(Given(), CREATE_VERIFY_NUDGE)] else []
      ensures State() == CreateChecked(Given(), old(State()), call)
    {
      hide Nudges;
      hide Nudged;
      hide Stored;
      hide Emitted;
      hide Repeats;
      hide Failures;
      hide FreeCall;
      hide FreeText;
      hide Fresh;
      hide Tally;
      hide Silent;
      consecutive := if Creates(call) then consecutive + 1 else 0;
      if observing && consecutive >= 3 && !createNudged {
        CreateHit(call);
      }
    }

    method CreateHit(call: Call)
      requires Counted() && Silent() && Outside() && !createNudged
      requires channel != null ==> FreeCall(call, channel.nonce)
      modifies this`conv, this`events, this`createNudged
      ensures Counted() && Silent() && createNudged
      ensures conv == old(conv) + [Note(Given(), CREATE_VERIFY_NUDGE)]
      ensures State() == Nudged(Given(), old(State()).(createNudged := true), CREATE_VERIFY_NUDGE, CreateVerify, call.tool, consecutive)
    {
      hide Repeats;
      hide Failures;
      hide FreeCall;
      hide FreeText;
      hide Fresh;
      hide Tally;
      hide Silent;
      FreeOfCall(call);
      Nudge(CREATE_VERIFY_NUDGE, CreateVerify, call.tool, consecutive);
      createNudged := true;
    }

    // ---- one step ----------------------------------------------------------------------------

    ghost predicate FreeResult(done: Option<Content>) {
      channel != null && done.Some? ==> FreeContent(done.value, channel.nonce)
    }

    /** The run ends with a text of the loop's own. */
    method Conclude(answer: string) returns (done: Option<Content>)
      requires Silent() && (channel != null ==> FreeText(answer, channel.nonce))
      modifies this`conv, this`events
      ensures Silent() && done == Some(Plain(answer)) && FreeResult(done)
      ensures forall i :: Tally(events, i) == Tally(old(events), i)
      ensures conv == old(conv) + [Message("assistant", Plain(answer), [])] && events == old(events) + [Final(Plain(answer))]
      ensures State() == Concluded(old(State()), Plain(answer))
    {
      hide FreeText;
      hide Tally;
      StoreText("assistant", answer);
      Emit(Final(Plain(answer)));
      return Some(Plain(answer));
    }

    lemma FreeAround(a: Canned, x: string, b: string)
      requires Outside()
      requires channel != null ==> FreeText(x, channel.nonce) && FreeText(b, channel.nonce)
      requires channel != null ==> b == "" || !IsHex(b[0])
      ensures channel != null ==> FreeText(w.say(a) + x + b, channel.nonce)
    {
      if channel != null { FreeFramed(w.say(a), x, b, channel.nonce); }
    }

    lemma FreeSmall(x: string)
      requires Outside() && |x| < 16
      ensures channel != null ==> FreeText(x, channel.nonce)
    {
      if channel != null { FreeShort(x, channel.nonce); }
    }

    /** The second failure in a row: the answer says so. */
    method GiveUp(reply: Reply, reason: string) returns (done: Option<Content>)
      requires Silent() && Outside() && (channel != null ==> FreeText(reason, channel.nonce))
      modifies this`events
      ensures Silent() && done.Some? && FreeResult(done)
      ensures forall i :: Tally(events, i) == Tally(old(events), i)
      ensures State() == Emitted(old(State()), GaveUp(reason)) && done == Some(Plain(GiveUpText(w, reply, reason)))
    {
      hide Repeats;
      hide Failures;
      hide FreeReply;
      hide FreeText;
      hide Tally;
      hide Silent;
      hide Fresh;
      Emit(GaveUp(reason));
      if reply.truncated {
        FreeFixed(TOO_LONG_ANSWER);
        return Some(Plain(w.say(TOO_LONG_ANSWER)));
      }
      FreeSmall(")");
      FreeAround(NO_VALID_RESPONSE, reason, ")");
      return Some(Plain(w.say(NO_VALID_RESPONSE) + reason + ")"));
    }

    /** The first one: tell the model what was wrong. */
    method Reprompt(reply: Reply, reason: string, raw: string)
      requires Silent() && Outside()
      requires channel != null ==> FreeReply(reply, channel.nonce) && FreeText(reason, channel.nonce) && FreeText(raw, channel.nonce)
      modifies this`conv, this`events
      ensures Silent()
      ensures forall i :: Tally(events, i) == Tally(old(events), i)
      ensures State() == Emitted(Stored(old(State()), RepromptMessages(Given(), reply, reason, raw)), Reprompted(reason))
    {
      hide Repeats;
      hide Failures;
      hide FreeReply;
      hide FreeText;
      hide Tally;
      hide Silent;
      hide Fresh;
      if reply.truncated {
        FreeFixed(CUT_OFF_NOTE);
        StoreText("user", w.say(CUT_OFF_NOTE));
      } else {
        FreeReprompt(reply, reason, raw);
        Store(w.reprompt(reply, reason, raw));
      }
      Emit(Reprompted(reason));
    }

    /** The model's response could not be parsed: one reprompt, then give up. */
    method OnFailure(reply: Reply, reason: string, raw: string) returns (done: Option<Content>)
      requires Counted() && Silent() && Outside()
      requires channel != null ==> FreeReply(reply, channel.nonce) && FreeText(reason, channel.nonce) && FreeText(raw, channel.nonce)
      modifies this`conv, this`events, this`parseFailures, this`survived
      ensures Counted() && Silent() && FreeResult(done)
      ensures done.Some? <==> old(parseFailures) >= 1
      ensures done.None? ==> survived == old(survived) + [true]
      ensures Turn(State(), done) == Failing(Given(), old(State()), reply, reason, raw)
    {
      hide Emitted;
      hide Stored;
      hide RepromptMessages;
      hide GiveUpText;
      hide Repeats;
      hide Failures;
      hide FreeReply;
      hide FreeText;
      hide Tally;
      hide Silent;
      hide Fresh;
      Emit(ParseError(reason, raw));
      if parseFailures >= 1 {
        done := GiveUp(reply, reason);
      } else {
        SurviveFailure();
        Reprompt(reply, reason, raw);
        done := None;
      }
    }

    method SurviveFailure()
      requires Counted() && parseFailures == 0
      modifies this`parseFailures, this`survived
      ensures Counted() && survived == old(survived) + [true]
      ensures State() == old(State()).(failures := old(parseFailures) + 1)
    {
      hide Repeats;
      hide Failures;
      hide Nudges;
      FailOne(parseFailures, survived);
      parseFailures := parseFailures + 1;
      survived := survived + [true];
    }

    lemma FreeReprompt(reply: Reply, reason: string, raw: string)
      requires Outside()
      requires channel != null ==> FreeReply(reply, channel.nonce) && FreeText(reason, channel.nonce) && FreeText(raw, channel.nonce)
      ensures channel != null ==> FreeMessages(w.reprompt(reply, reason, raw), channel.nonce)
    {
    }

    lemma FreeResultMessages(reply: Reply, call: Call, v: Content)
      requires Outside()
      requires channel != null ==> FreeReply(reply, channel.nonce) && FreeCall(call, channel.nonce) && FreeContent(v, channel.nonce)
      ensures channel != null ==> FreeMessages(w.resultMessages(reply, call, v), channel.nonce)
    {
    }

    /** A result goes to the model: the notes that came meanwhile land on it. */
    method Land(n: nat, reply: Reply, call: Call, result: Content)
      requires Silent() && Outside()
      requires channel != null ==> FreeReply(reply, channel.nonce) && FreeCall(call, channel.nonce) && FreeContent(result, channel.nonce)
      modifies this`conv, this`events, channel
      ensures Silent()
      ensures forall i :: Tally(events, i) == Tally(old(events), i)
      ensures channel == null ==> conv == old(conv) + w.resultMessages(reply, call, result)
      ensures channel != null ==>
        var pending := Queueing(old(channel.pending), w.arrivals(n), channel.maxChars, channel.maxPending);
        conv == old(conv) + w.resultMessages(reply, call, SeenAs(w, n, result, pending, old(channel.slots)))
      ensures channel != null && result.Plain? ==> channel.pending == []
      ensures State() == Landing(Given(), old(State()), n, reply, call, result)
    {
      hide FreeText;
      hide Tally;
      hide Silent;
      hide Fresh;
      Arrive(n);
      FreeOfCall(call);
      var seen := ForModel(n, call.tool, result);
      FreeResultMessages(reply, call, seen);
      Store(w.resultMessages(reply, call, seen));
    }

    /** The call was refused before it ran: by validation, or by the user. */
    method NotRun(n: nat, reply: Reply, call: Call, result: string)
      requires Silent() && Outside()
      requires channel != null ==> FreeReply(reply, channel.nonce) && FreeCall(call, channel.nonce) && FreeText(result, channel.nonce)
      modifies this`conv, this`events, channel
      ensures Silent()
      ensures forall i :: Tally(events, i) == Tally(old(events), i)
      ensures State() == LoopSteps.NotRun(Given(), old(State()), n, reply, call, result)
    {
      hide FreeText;
      hide Tally;
      hide Silent;
      hide Fresh;
      FreeOfCall(call);
      Land(n, reply, call, Plain(result));
      Emit(ToolResult(call.tool, false, Plain(result)));
    }

    /** A tool ran and its result goes back to the model. */
    method Report(n: nat, reply: Reply, call: Call, result: Content)
      requires Midway(Signature(call), 0) && Silent() && Outside() && Signature(call) in counts
      requires channel != null ==> FreeReply(reply, channel.nonce) && FreeCall(call, channel.nonce) && FreeContent(result, channel.nonce)
      modifies this`conv, this`events, this`nudged, this`consecutive, this`createNudged, channel
      ensures Counted() && Silent()
      ensures State() == Reported(Given(), old(State()), n, reply, call, result)
    {
      hide Repeats;
      hide RepeatsBut;
      hide Failures;
      hide FreeReply;
      hide FreeText;
      hide FreeCall;
      hide Tally;
      hide Silent;
      hide Fresh;
      Land(n, reply, call, result);
      RepeatCheck(call, Signature(call));
      CreateCheck(call);
    }

    /** A tool's result ends the run. */
    method Terminate(result: Content) returns (done: Option<Content>)
      requires Silent() && (channel != null ==> FreeContent(result, channel.nonce))
      modifies this`conv, this`events
      ensures Silent() && done == Some(result) && FreeResult(done)
      ensures forall i :: Tally(events, i) == Tally(old(events), i)
      ensures State() == Concluded(old(State()), result)
    {
      hide FreeText;
      hide Tally;
      if channel != null { FreeShort("assistant", channel.nonce); }
      Store([Message("assistant", result, [])]);
      Emit(Final(result));
      return Some(result);
    }

    /** The tool ran, or tried to. */
    method Finish(n: nat, reply: Reply, call: Call, result: Content, ok: bool) returns (done: Option<Content>)
      requires Midway(Signature(call), 0) && Silent() && Outside() && Signature(call) in counts
      requires channel != null ==> FreeReply(reply, channel.nonce) && FreeCall(call, channel.nonce) && FreeContent(result, channel.nonce)
      modifies this`conv, this`events, this`echo, this`nudged, this`consecutive, this`createNudged, channel
      ensures Silent() && FreeResult(done)
      ensures done.Some? <==> w.terminal(call)
      ensures done.None? ==> Counted()
      ensures done.Some? ==> Midway(Signature(call), 0) && done.value == result
      ensures Turn(State(), done) == Finished(Given(), old(State()), n, reply, call, result, ok)
    {
      hide Emitted;
      hide Concluded;
      hide Reported;
      hide Repeats;
      hide RepeatsBut;
      hide Failures;
      hide FreeReply;
      hide FreeText;
      hide FreeCall;
      hide Tally;
      hide Silent;
      hide Fresh;
      hide Nudges;
      hide Kept;
      NoteResult(call, result, ok, Signature(call));
      if w.terminal(call) {
        ghost var before := events;
        done := Terminate(result);
        NudgesSame(before, events, fuzzyNudged, createNudged, nudged);
      } else {
        Report(n, reply, call, result);
        done := None;
      }
    }

    /** The result is emitted, and kept if it must reach the user. */
    method NoteResult(call: Call, result: Content, ok: bool, ghost sig: string)
      requires Midway(sig, 0) && Silent() && (channel != null ==> FreeCall(call, channel.nonce) && FreeContent(result, channel.nonce))
      modifies this`events, this`echo
      ensures Midway(sig, 0) && Silent()
      ensures State() == Kept(Given(), Emitted(old(State()), ToolResult(call.tool, ok, result)), call, result, ok)
    {
      hide Repeats;
      hide RepeatsBut;
      hide Failures;
      hide FreeReply;
      hide FreeText;
      hide FreeCall;
      hide Tally;
      hide Silent;
      hide Fresh;
      hide Nudges;
      ghost var before := events;
      FreeOfCall(call);
      Emit(ToolResult(call.tool, ok, result));
      NudgesSame(before, events, fuzzyNudged, createNudged, nudged);
      if ok && w.echoes(call) && result.Plain? {
        KeepEcho(result.text);
      }
    }

    method KeepEcho(text: string)
      requires Silent() && (channel != null ==> FreeText(text, channel.nonce))
      modifies this`echo
      ensures Silent() && echo == old(echo) + [text]
      ensures State() == old(State()).(echo := old(echo) + [text])
    {
      hide FreeText;
      echo := echo + [text];
    }

    method OnInvalid(n: nat, reply: Reply, call: Call, error: string)
      requires Midway(Signature(call), 1) && Silent() && Outside() && Signature(call) in counts
      requires channel != null ==> FreeReply(reply, channel.nonce) && FreeCall(call, channel.nonce)
      requires channel != null ==> FreeText(error, channel.nonce)
      modifies this`conv, this`events, this`nudged, channel
      ensures Silent() && Counted()
      ensures Turn(State(), None) == Settled(Given(), old(State()), n, reply, call, Invalid(error))
    {
      hide Repeats;
      hide RepeatsBut;
      hide Failures;
      hide FreeReply;
      hide FreeText;
      hide FreeCall;
      hide Tally;
      hide Silent;
      hide Fresh;
      Weaken(Signature(call));
      FreeSmall("");
      FreeAround(VALIDATION_ERROR, error, "");
      NotRun(n, reply, call, w.say(VALIDATION_ERROR) + error + "");
      RepeatCheck(call, Signature(call));
    }

    method OnRefused(n: nat, reply: Reply, call: Call)
      requires Midway(Signature(call), 1) && Silent() && Outside() && Signature(call) in counts
      requires channel != null ==> FreeReply(reply, channel.nonce) && FreeCall(call, channel.nonce)
      modifies this`conv, this`events, this`refused, channel
      ensures Silent() && Counted()
      ensures refused == old(refused) + {(Signature(call), counts[Signature(call)])}
      ensures Turn(State(), None) == Settled(Given(), old(State()), n, reply, call, Refused)
    {
      hide LoopSteps.NotRun;
      hide Nudges;
      hide Repeats;
      hide RepeatsBut;
      hide Failures;
      hide FreeReply;
      hide FreeText;
      hide FreeCall;
      hide Tally;
      hide Silent;
      hide Fresh;
      FreeOfCall(call);
      FreeSmall("'.");
      FreeAround(DECLINED, call.tool, "'.");
      RefuseOne(observing, threshold, counts, ran, nudged, refused, Signature(call));
      ghost var before := events;
      NotRun(n, reply, call, w.say(DECLINED) + call.tool + "'.");
      NudgesSame(before, events, fuzzyNudged, createNudged, nudged);
      refused := refused + {(Signature(call), counts[Signature(call)])};
    }

    method OnPaused(message: string, ghost sig: string) returns (done: Option<Content>)
      requires Midway(sig, 1) && Silent() && (channel != null ==> FreeText(message, channel.nonce))
      modifies this`conv, this`events
      ensures Silent() && done == Some(Plain(message)) && FreeResult(done)
      ensures State() == Emitted(Stored(old(State()), [Message("assistant", Plain(message), [])]), PausedAt(message))
      ensures Midway(sig, 0)
    {
      hide Repeats;
      hide RepeatsBut;
      hide Failures;
      hide FreeReply;
      hide FreeText;
      hide FreeCall;
      hide Tally;
      hide Silent;
      hide Fresh;
      Weaken(sig);
      StoreText("assistant", message);
      Emit(PausedAt(message));
      return Some(Plain(message));
    }

    /** The tool runs. */
    method OnRun(n: nat, reply: Reply, call: Call, result: Content, ok: bool) returns (done: Option<Content>)
      requires Midway(Signature(call), 1) && Silent() && Outside() && Signature(call) in counts
      requires channel != null ==> FreeReply(reply, channel.nonce) && FreeCall(call, channel.nonce)
      requires channel != null ==> FreeContent(result, channel.nonce)
      modifies this`conv, this`events, this`echo, this`nudged, this`consecutive, this`createNudged, this`ran, channel
      ensures Silent() && FreeResult(done)
      ensures done.None? ==> Counted()
      ensures done.Some? ==> Midway(Signature(call), 0)
      ensures ran == old(ran) + multiset{Signature(call)}
      ensures Turn(State(), done) == Finished(Given(), old(State()), n, reply, call, result, ok)
    {
      hide Repeats;
      hide RepeatsBut;
      hide Failures;
      hide FreeReply;
      hide FreeText;
      hide FreeCall;
      hide Tally;
      hide Silent;
      hide Fresh;
      RunOne(observing, threshold, counts, ran, nudged, refused, Signature(call));
      ran := ran + multiset{Signature(call)};
      done := Finish(n, reply, call, result, ok);
    }

    /** A counted call: the soft nudge, validation, the gate, the tool. */
    method Execute(n: nat, reply: Reply, call: Call) returns (done: Option<Content>)
      requires Midway(Signature(call), 1) && Silent() && Outside() && Signature(call) in counts
      requires channel != null ==> FreeReply(reply, channel.nonce) && FreeCall(call, channel.nonce)
      modifies this`conv, this`events, this`echo, this`nudged, this`consecutive, this`createNudged, this`recent,
        this`fuzzyNudged, this`ran, this`refused, channel
      ensures Silent() && FreeResult(done)
      ensures done.None? ==> Counted()
      ensures done.Some? ==> Midway(Signature(call), 0)
      ensures var o := w.outcome(n, call); ran == old(ran) + if o.Failed? || o.Returned? then multiset{Signature(call)} else multiset{}
      ensures stuck == old(stuck)
      ensures Turn(State(), done) == Executed(Given(), old(State()), n, reply, call)
    {
      hide Nudges;
      hide Emitted;
      hide FuzzyChecked;
      hide ValidatedAs;
      hide Finished;
      hide LoopSteps.NotRun;
      hide RepeatChecked;
      hide Repeats;
      hide RepeatsBut;
      hide Failures;
      hide FreeReply;
      hide FreeText;
      hide FreeCall;
      hide Tally;
      hide Silent;
      hide Fresh;
      hide Signature;
      hide Midway;
      hide Outside;
      FuzzyCheck(call, Signature(call), 1);
      FreeOutcomeOf(n, call);
      var outcome := w.outcome(n, call);
      EmitValidated(call, outcome);
      done := Settle(n, reply, call, outcome);
    }

    /** What validation, the gate and the tool made of it. */
    method Settle(n: nat, reply: Reply, call: Call, outcome: Outcome) returns (done: Option<Content>)
      requires Midway(Signature(call), 1) && Silent() && Outside() && Signature(call) in counts
      requires channel != null ==> FreeReply(reply, channel.nonce) && FreeCall(call, channel.nonce) && FreeOutcome(outcome, channel.nonce)
      modifies this`conv, this`events, this`echo, this`nudged, this`consecutive, this`createNudged, this`ran, this`refused, channel
      ensures Silent() && FreeResult(done)
      ensures done.None? ==> Counted()
      ensures done.Some? ==> Midway(Signature(call), 0)
      ensures ran == old(ran) + if outcome.Failed? || outcome.Returned? then multiset{Signature(call)} else multiset{}
      ensures Turn(State(), done) == Settled(Given(), old(State()), n, reply, call, outcome)
    {
      hide Repeats;
      hide RepeatsBut;
      hide Failures;
      hide FreeReply;
      hide FreeText;
      hide FreeCall;
      hide Tally;
      hide Silent;
      hide Fresh;
      hide Nudges;
      hide Signature;
      hide Midway;
      hide Outside;
      hide Emitted;
      hide Stored;
      hide Finished;
      hide LoopSteps.NotRun;
      hide RepeatChecked;
      FreeOfCall(call);
      match outcome {
        case Invalid(error) =>
          OnInvalid(n, reply, call, error);
          done := None;
        case Refused =>
          OnRefused(n, reply, call);
          done := None;
        case Paused(message) =>
          done := OnPaused(message, Signature(call));
        case Failed(error) =>
          FreeFailure(call.tool, error);
          done := OnRun(n, reply, call, Plain(FailureText(w, call.tool, error)), false);
        case Returned(result) =>
          done := OnRun(n, reply, call, result, true);
      }
    }

    method EmitValidated(call: Call, outcome: Outcome)
      requires Midway(Signature(call), 1) && Silent() && Outside()
      requires channel != null ==> FreeCall(call, channel.nonce) && FreeOutcome(outcome, channel.nonce)
      modifies this`events
      ensures Midway(Signature(call), 1) && Silent()
      ensures State() == Emitted(old(State()), ValidatedAs(call, outcome))
    {
      hide Repeats;
      hide RepeatsBut;
      hide Failures;
      hide FreeReply;
      hide FreeText;
      hide FreeCall;
      hide Tally;
      hide Silent;
      hide Fresh;
      FreeOfCall(call);
      FreeSmall("");
      Emit(Validated(call.tool, !outcome.Invalid?, if outcome.Invalid? then outcome.error else ""));
    }

    lemma Weaken(sig: string)
      requires Midway(sig, 1)
      ensures Midway(sig, 0)
    {
    }

    lemma FreeOutcomeOf(n: nat, call: Call)
      requires Outside() && (channel != null ==> FreeCall(call, channel.nonce))
      ensures channel != null ==> FreeOutcome(w.outcome(n, call), channel.nonce)
    {
    }

    lemma FreeFailure(tool: string, error: string)
      requires Outside()
      requires channel != null ==> FreeText(tool, channel.nonce) && FreeText(error, channel.nonce)
      ensures channel != null ==> FreeText(FailureText(w, tool, error), channel.nonce)
    {
      hide FreeText;
      if channel != null {
        FreeShort("", channel.nonce);
        FreeFramed(w.say(TOOL_FAILED), error, "", channel.nonce);
        assert (w.say(TOOL_FAILED) + error + "")[0] == w.say(TOOL_FAILED)[0];
        FreeFramed(w.say(TOOL), tool, w.say(TOOL_FAILED) + error + "", channel.nonce);
      }
    }

    /** The observers that can stop a run: recreating one tool over and over, repeating one call. */
    method OnCall(n: nat, reply: Reply, call: Call) returns (done: Option<Content>)
      requires Counted() && Silent() && Outside()
      requires channel != null ==> FreeReply(reply, channel.nonce) && FreeCall(call, channel.nonce)
      modifies this`conv, this`events, this`echo, this`nudged, this`consecutive, this`createNudged, this`recent,
        this`fuzzyNudged, this`ran, this`refused, this`counts, this`creates, this`stuck, channel
      ensures Silent() && FreeResult(done) && Bounded()
      ensures done.None? ==> Counted()
      ensures stuck.Some? <==> observing && Times(old(counts), Signature(call)) >= threshold && !Recreating(Given(), old(State()), call)
      ensures Recreating(Given(), old(State()), call) || stuck.Some? ==> done.Some? && ran == old(ran)
      ensures Turn(State(), done) == Called(Given(), old(State()), n, reply, call)
    {
      hide Recreating;
      hide Creates;
      hide CreateKey;
      hide Nudges;
      hide Bounds;
      hide Emitted;
      hide Executed;
      hide Ended;
      hide Repeats;
      hide RepeatsBut;
      hide Failures;
      hide FreeReply;
      hide FreeText;
      hide FreeCall;
      hide Tally;
      hide Silent;
      hide Fresh;
      hide Outside;
      var over := CountBuild(call);
      if over {
        done := StopRecreating(call, Times(creates, CreateKey(call)));
        Bound();
      } else if observing && Times(counts, Signature(call)) >= threshold {
        done := StopRepeating(call);
      } else {
        Count(call);
        done := Execute(n, reply, call);
        if done.None? { Bound(); } else { BoundMidway(Signature(call)); }
      }
    }

    /** Building the same thing again counts against its name; has that been done too often? */
    method CountBuild(call: Call) returns (over: bool)
      modifies this`creates
      ensures State() == Built(Given(), old(State()), call)
      ensures over <==> Recreating(Given(), old(State()), call)
    {
      var key := call.tool + "#" + call.name;
      over := false;
      if observing && Creates(call) && call.name != "" {
        creates := creates[key := Times(creates, key) + 1];
        over := creates[key] > RecreateLimit(threshold);
      }
    }

    method Count(call: Call)
      requires Counted() && Silent() && !Repeating(Given(), State(), call)
      modifies this`counts
      ensures Midway(Signature(call), 1) && Silent() && Signature(call) in counts
      ensures State() == LoopSteps.Counted(old(State()), call)
    {
      hide Repeats;
      hide RepeatsBut;
      hide Failures;
      hide Nudges;
      hide Tally;
      CountOne(observing, threshold, counts, ran, nudged, refused, Signature(call));
      counts := counts[Signature(call) := Times(counts, Signature(call)) + 1];
    }

    /** Between steps, and in the middle of one, everything is within bounds. */
    lemma Bound()
      requires Counted()
      ensures Bounded()
    {
    }

    lemma BoundMidway(sig: string)
      requires Midway(sig, 0)
      ensures Bounded()
    {
    }

    method StopRecreating(call: Call, count: nat) returns (done: Option<Content>)
      requires Counted() && Silent() && Outside() && (channel != null ==> FreeCall(call, channel.nonce))
      modifies this`conv, this`events
      ensures Counted() && Silent() && done.Some? && FreeResult(done)
      ensures Turn(State(), done) ==
        Ended(Emitted(old(State()), Observed(StuckRecreating, call.tool, count)), RebuildText(w, call.name))
    {
      hide Repeats;
      hide RepeatsBut;
      hide Failures;
      hide FreeReply;
      hide FreeText;
      hide FreeCall;
      hide Tally;
      hide Silent;
      hide Fresh;
      FreeOfCall(call);
      Emit(Observed(StuckRecreating, call.tool, count));
      FreeFixed(STOPPED_REBUILDING);
      FreeAround(REBUILD, call.name, w.say(STOPPED_REBUILDING));
      done := Conclude(w.say(REBUILD) + call.name + w.say(STOPPED_REBUILDING));
    }

    method StopRepeating(call: Call) returns (done: Option<Content>)
      requires Counted() && Silent() && Outside() && (channel != null ==> FreeCall(call, channel.nonce))
      requires observing && Times(counts, Signature(call)) >= threshold
      modifies this`conv, this`events, this`counts, this`stuck
      ensures Bounded() && Silent() && done.Some? && FreeResult(done)
      ensures stuck == Some((Signature(call), Times(old(counts), Signature(call)) + 1))
      ensures counts == old(counts)[Signature(call) := Times(old(counts), Signature(call)) + 1]
      ensures Turn(State(), done) ==
        Ended(Emitted(LoopSteps.Counted(old(State()), call), Observed(StuckRepeating, call.tool, Times(old(counts), Signature(call)) + 1)),
              w.say(STUCK_ANSWER))
    {
      hide Ended;
      hide Repeats;
      hide RepeatsBut;
      hide Failures;
      hide FreeReply;
      hide FreeText;
      hide FreeCall;
      hide Tally;
      hide Silent;
      hide Fresh;
      hide Signature;
      hide Bounds;
      hide Times;
      hide Nudges;
      var sig := Signature(call);
      var count := Times(counts, sig) + 1;
      ghost var before, counted := events, counts;
      counts := counts[sig := count];
      done := SayStuck(call, count);
      StuckBounds(threshold, counted, ran, nudged, refused, before, events, fuzzyNudged, createNudged, parseFailures, survived, sig);
      stuck := Some((sig, count));
    }

    method SayStuck(call: Call, count: nat) returns (done: Option<Content>)
      requires Silent() && Outside() && (channel != null ==> FreeCall(call, channel.nonce))
      modifies this`conv, this`events
      ensures Silent() && done.Some? && FreeResult(done)
      ensures forall i :: Tally(events, i) == Tally(old(events), i) + if i == LoopWorld.StuckRepeating then 1 else 0
      ensures Turn(State(), done) == Ended(Emitted(old(State()), Observed(StuckRepeating, call.tool, count)), w.say(STUCK_ANSWER))
    {
      hide FreeCall;
      hide FreeText;
      hide Tally;
      hide Silent;
      hide Fresh;
      hide Emitted;
      hide Concluded;
      FreeOfCall(call);
      Emit(Observed(StuckRepeating, call.tool, count));
      FreeFixed(STUCK_ANSWER);
      done := Conclude(w.say(STUCK_ANSWER));
    }

    /** The model call: the nonce is put into a copy of the request, and stripped from the reply. */
    method Ask(n: nat) returns (got: Option<Reply>, done: Option<Content>)
      requires Counted() && Silent() && Outside()
      modifies this`events, this`asked
      ensures Counted() && Silent() && FreeResult(done)
      ensures got.Some? <==> done.None?
      ensures got.Some? && channel != null ==> FreeReply(got.value, channel.nonce)
      ensures asked == old(asked) + [if channel == null then w.request(conv) else Spliced(w.request(conv), channel.slots, channel.nonce)]
      ensures ModelRequest(w.request(conv)) in events
      ensures Answering(n, got, done, Asked(Given(), old(State())))
    {
      hide Repeats;
      hide RepeatsBut;
      hide Failures;
      hide FreeReply;
      hide FreeText;
      hide FreeCall;
      hide Tally;
      hide Silent;
      hide Fresh;
      var request := w.request(conv);
      FreeRequest(conv);
      Emit(ModelRequest(request));
      assert ModelRequest(request) == events[|events| - 1];
      if channel != null {
        var sent := Splice(request);
        asked := asked + [sent];
      } else {
        asked := asked + [request];
      }
      assert State() == Asked(Given(), old(State()));
      got, done := Receive(n);
    }

    /** The model's answer, or the failure to get one, and the state it leaves. */
    ghost predicate Answering(n: nat, got: Option<Reply>, done: Option<Content>, before: State)
      reads this, channel
    {
      match w.reply(n)
      case Down(error) =>
        && done == Some(Plain(DownText(w, error)))
        && State() == Emitted(before, ModelDown(w.say(MODEL_FAILED) + error + ""))
      case Said(raw) => got == Some(Heard(Given(), raw)) && State() == Emitted(before, ModelResponse(Heard(Given(), raw)))
    }

    method Splice(request: seq<Message>) returns (sent: seq<Message>)
      requires channel != null && Silent()
      ensures sent == Spliced(request, channel.slots, channel.nonce)
    {
      hide FreeText;
      sent := channel.Apply(request);
    }

    method Receive(n: nat) returns (got: Option<Reply>, done: Option<Content>)
      requires Counted() && Silent() && Outside()
      modifies this`events
      ensures Counted() && Silent() && FreeResult(done)
      ensures got.Some? <==> done.None?
      ensures got.Some? && channel != null ==> FreeReply(got.value, channel.nonce)
      ensures forall e :: e in old(events) ==> e in events
      ensures Answering(n, got, done, old(State()))
    {
      hide Repeats;
      hide RepeatsBut;
      hide Failures;
      hide FreeReply;
      hide FreeText;
      hide FreeCall;
      hide Tally;
      hide Silent;
      hide Fresh;
      FreeReceived(n);
      match w.reply(n) {
        case Down(error) =>
          FreeSmall("");
          FreeSmall(").");
          FreeAround(MODEL_FAILED, error, "");
          FreeAround(UNREACHABLE, error, ").");
          Emit(ModelDown(w.say(MODEL_FAILED) + error + ""));
          return None, Some(Plain(w.say(UNREACHABLE) + error + ")."));
        case Said(raw) =>
          var reply := if channel != null then ScrubReply(raw, channel.nonce) else raw;
          Emit(ModelResponse(reply));
          return Some(reply), None;
      }
    }

    lemma FreeRequest(ms: seq<Message>)
      requires Outside() && Silent() && ms == conv
      ensures channel != null ==> FreeMessages(w.request(ms), channel.nonce)
    {
    }

    lemma FreeReceived(n: nat)
      requires Outside()
      ensures channel != null ==> channel.nonce != ""
      ensures channel != null && w.reply(n).Down? ==> FreeText(w.reply(n).error, channel.nonce)
      ensures channel != null && w.reply(n).Said? ==> FreeReply(ScrubReply(w.reply(n).reply, channel.nonce), channel.nonce)
    {
      if channel != null {
        assert OnlyInScrubbed(w.reply(n), channel.nonce);
        if w.reply(n).Said? { ScrubbedIsFree(w.reply(n).reply, channel.nonce); }
      }
    }

    lemma FreeParsedReply(reply: Reply)
      requires Outside() && (channel != null ==> FreeReply(reply, channel.nonce))
      ensures channel != null ==> FreeParsed(w.parse(reply), channel.nonce)
    {
    }

    /** The final answer, with the outputs that must reach the user. */
    method OnAnswer(text: string) returns (done: Option<Content>)
      requires Counted() && Silent() && Outside() && (channel != null ==> FreeText(text, channel.nonce))
      modifies this`conv, this`events
      ensures Counted() && Silent() && FreeResult(done) && done == Some(Plain(Unechoed(text, echo)))
      ensures conv == old(conv) + [Message("assistant", Plain(Unechoed(text, echo)), [])]
      ensures events == old(events) + [Final(Plain(Unechoed(text, echo)))]
      ensures Turn(State(), done) == Ended(old(State()), Unechoed(text, old(echo)))
    {
      hide Repeats;
      hide RepeatsBut;
      hide Failures;
      hide FreeReply;
      hide FreeText;
      hide FreeCall;
      hide Tally;
      hide Silent;
      hide Fresh;
      hide Unechoed;
      hide Extra;
      FreeAnswer(text);
      var shown := WithUnechoed(text, echo);
      done := Conclude(shown);
    }

    lemma FreeAnswer(text: string)
      requires Outside() && Silent() && (channel != null ==> FreeText(text, channel.nonce))
      ensures channel != null ==> FreeText(Unechoed(text, echo), channel.nonce)
    {
      if channel != null { FreeUnechoed(text, echo, channel.nonce); }
    }

    /** One step: one model call, and what follows from its reply. */
    method Step(n: nat) returns (done: Option<Content>)
      requires Counted() && Silent() && Outside()
      modifies this, channel
      ensures Silent() && Bounded() && FreeResult(done)
      ensures done.None? ==> Counted()
      ensures |asked| == |old(asked)| + 1
      ensures Turn(State(), done) == Stepped(Given(), old(State()), n)
    {
      hide Repeats;
      hide RepeatsBut;
      hide Failures;
      hide FreeReply;
      hide FreeText;
      hide FreeCall;
      hide Tally;
      hide Silent;
      hide Fresh;
      hide Counted;
      hide Outside;
      var got, failed := Ask(n);
      if failed.Some? {
        Bound();
        return failed;
      }
      var reply := got.value;
      FreeParsedReply(reply);
      match w.parse(reply) {
        case Answer(text) =>
          done := OnAnswer(text);
          Bound();
        case Failure(reason, raw) =>
          done := OnFailure(reply, reason, raw);
          Bound();
        case ToolCall(call) =>
          Parsed(call);
          done := OnCall(n, reply, call);
      }
    }

    /** The reply was a tool call: failures start counting again. */
    method Parsed(call: Call)
      requires Counted() && Silent() && (channel != null ==> FreeCall(call, channel.nonce))
      modifies this`events, this`parseFailures, this`survived
      ensures Counted() && Silent() && parseFailures == 0 && survived == old(survived) + [false]
      ensures State() == Emitted(old(State()).(failures := 0), ToolCalled(call))
    {
      hide Repeats;
      hide RepeatsBut;
      hide Failures;
      hide FreeReply;
      hide FreeText;
      hide FreeCall;
      hide Tally;
      hide Silent;
      hide Fresh;
      FailOne(parseFailures, survived);
      parseFailures := 0;
      survived := survived + [false];
      Emit(ToolCalled(call));
    }

    /** The run: at most `maxSteps` model calls; nothing stored, emitted or answered holds the nonce;
        no call is run more often than the threshold; no two failures in a row; the soft nudges at
        most once; and a stop for repeating comes exactly one call past the threshold. */
    method Loop(userText: string, userContent: Content) returns (answer: Content)
      requires Counted() && Silent() && Outside() && asked == []
      requires channel != null ==> FreeText(userText, channel.nonce) && FreeContent(userContent, channel.nonce)
      modifies this, channel
      ensures Silent() && Bounded()
      ensures channel != null ==> FreeContent(answer, channel.nonce)
      ensures |asked| <= maxSteps
      ensures Turn(State(), Some(answer)) == Whole(Given(), old(State()), userText, userContent, maxSteps)
    {
      hide Repeats;
      hide RepeatsBut;
      hide Failures;
      hide FreeReply;
      hide FreeText;
      hide FreeCall;
      hide Tally;
      hide Silent;
      hide Fresh;
      hide Counted;
      hide Outside;
      StartWith(userText, userContent);
      var n := 0;
      while n < maxSteps
        invariant n <= maxSteps && |asked| == n
        invariant Counted() && Silent() && Outside()
        invariant Rest(Given(), State(), n, maxSteps) == Whole(Given(), old(State()), userText, userContent, maxSteps)
      {
        n := n + 1;
        var done := Step(n);
        if done.Some? {
          return done.value;
        }
      }
      Bound();
      answer := RunOut();
    }

    method StartWith(userText: string, userContent: Content)
      requires Counted() && Silent()
      requires channel != null ==> FreeText(userText, channel.nonce) && FreeContent(userContent, channel.nonce)
      modifies this`conv, this`events
      ensures Counted() && Silent()
      ensures conv == old(conv) + [Message("user", userContent, [])]
      ensures State() == Started(old(State()), userText, userContent)
    {
      hide Repeats;
      hide Failures;
      hide FreeText;
      hide Tally;
      if channel != null { FreeShort("user", channel.nonce); }
      Store([Message("user", userContent, [])]);
      Emit(Received(userText));
    }

    /** The step budget is used up. */
    method RunOut() returns (answer: Content)
      requires Bounded() && Silent() && Outside()
      modifies this`events
      ensures Bounded() && Silent() && (channel != null ==> FreeContent(answer, channel.nonce))
      ensures State() == Emitted(old(State()), OutOfSteps) && answer == Plain(RunOutText(w, maxSteps))
    {
      hide StuckRightly;
      hide Apart;
      hide FreeText;
      hide Tally;
      Emit(OutOfSteps);
      FreeSteps();
      return Plain(w.say(OUT_OF_STEPS) + w.decimal(maxSteps) + w.say(STEPS));
    }

    lemma FreeSteps()
      requires Outside()
      ensures channel != null ==> FreeText(w.say(OUT_OF_STEPS) + w.decimal(maxSteps) + w.say(STEPS), channel.nonce)
    {
      if channel != null { FreeFramed(w.say(OUT_OF_STEPS), w.decimal(maxSteps), w.say(STEPS), channel.nonce); }
    }
  }
}
