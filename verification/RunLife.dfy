/** The life of runs: starting, steering, stopping and finishing them, in any interleaving. */
module RunLife {
  import opened Text
  import S = Steering

  // ---- state --------------------------------------------------------------------

  datatype Status = Working | Cancelled | Ended

  /** A run, with its own steering channel if it has one: the notes waiting on it, and the notes that
      landed on its tool results, in that order. */
  datatype Run = Run(session: string, channel: bool, pending: seq<string>, landed: seq<string>, status: Status)

  /** A task waiting to become a run: after `prior`, if any; carrying late notes of run `late`, if any. */
  datatype Task = Task(session: string, text: string, prior: Option<nat>, late: Option<nat>, started: bool)

  datatype Fate = Waiting | LandedOn | Dropped | Resent

  /** An accepted note: the run whose channel took it, and what became of it. */
  datatype Entry = Entry(run: nat, text: string, fate: Fate)

  /** `running` and `steering` are the engine's two tables; `ledger` lists every accepted note in
      order of arrival. */
  datatype Life = Life(enabled: bool, runs: seq<Run>, running: map<string, nat>, steering: map<string, nat>,
                       tasks: seq<Task>, ledger: seq<Entry>)

  datatype Action =
    | Configure(enabled: bool)
    | Start(session: string, steerable: bool)
    | Steer(session: string, text: string)
    | ToolResult(run: nat)
    | Stop(session: string)
    | Interrupt(session: string)
    | Finish(run: nat)
    | QueueTask(session: string, text: string)
    | Launch(task: nat, steerable: bool)

  const Init: Life := Life(true, [], map[], map[], [], [])

  const ROUTINE: string := "__routine__:"

  // ---- steps ----------------------------------------------------------------------

  predicate IsRunning(l: Life, session: string) {
    session in l.running && l.running[session] < |l.runs| && l.runs[l.running[session]].status != Ended
  }

  /** Where a steer for this session goes, if anywhere. */
  predicate Steerable(l: Life, session: string) {
    l.enabled && session in l.steering && l.steering[session] < |l.runs| && IsRunning(l, session)
  }

  predicate Accepts(l: Life, session: string, text: string) {
    && Steerable(l, session)
    && 0 < |Strip(text)| <= S.STEER_MAX_CHARS
    && |l.runs[l.steering[session]].pending| < S.STEER_MAX_PENDING
  }

  function Settled(e: Entry, r: nat, fate: Fate): Entry {
    if e.run == r && e.fate == Waiting then e.(fate := fate) else e
  }

  /** The notes waiting on run r meet their fate. */
  function Settle(ledger: seq<Entry>, r: nat, fate: Fate): (s: seq<Entry>)
    ensures |s| == |ledger|
    ensures forall k :: 0 <= k < |ledger| ==> s[k] == Settled(ledger[k], r, fate)
  {
    if ledger == [] then []
    else
      var n := |ledger| - 1;
      Settle(ledger[..n], r, fate) + [Settled(ledger[n], r, fate)]
  }

  /** A run enters the tables; `steerable` is what the configuration said when it was set up. */
  function StartRun(l: Life, session: string, steerable: bool): Life {
    var r := |l.runs|;
    var channel := steerable && !(ROUTINE <= session);
    l.(runs := l.runs + [Run(session, channel, [], [], Working)],
       running := l.running[session := r],
       steering := if channel then l.steering[session := r] else l.steering)
  }

  function SteerRun(l: Life, session: string, text: string): Life {
    if !Accepts(l, session, text) then l
    else
      var r := l.steering[session];
      l.(runs := l.runs[r := l.runs[r].(pending := l.runs[r].pending + [Strip(text)])],
         ledger := l.ledger + [Entry(r, Strip(text), Waiting)])
  }

  function LandNotes(l: Life, r: nat): Life {
    if r >= |l.runs| || l.runs[r].status != Working || !l.runs[r].channel then l
    else
      l.(runs := l.runs[r := l.runs[r].(pending := [], landed := l.runs[r].landed + l.runs[r].pending)],
         ledger := Settle(l.ledger, r, LandedOn))
  }

  /** The channel registered for the session is emptied. */
  function AbandonNotes(l: Life, session: string): Life {
    if session !in l.steering || l.steering[session] >= |l.runs| then l
    else
      var r := l.steering[session];
      l.(runs := l.runs[r := l.runs[r].(pending := [])], ledger := Settle(l.ledger, r, Dropped))
  }

  function Cancel(l: Life, r: nat): Life
    requires r < |l.runs|
  {
    l.(runs := l.runs[r := l.runs[r].(status := Cancelled)])
  }

  function StopRun(l: Life, session: string): Life {
    if !IsRunning(l, session) then l
    else Cancel(AbandonNotes(l, session), l.running[session])
  }

  /** The run unwinds: it leaves the tables, and notes that never landed become one late task. */
  function FinishRun(l: Life, r: nat): Life {
    if r >= |l.runs| || l.runs[r].status == Ended then l
    else
      var run := l.runs[r];
      var left := run.pending;
      l.(runs := l.runs[r := run.(pending := [], status := Ended)],
         running := l.running - {run.session},
         steering := if run.channel then l.steering - {run.session} else l.steering,
         tasks := if left == [] then l.tasks
                  else l.tasks + [Task(run.session, Join(left, "\n"), None, Some(r), false)],
         ledger := Settle(l.ledger, r, Resent))
  }

  function QueueTaskFor(l: Life, session: string, text: string): Life {
    var prior := if IsRunning(l, session) then Some(l.running[session]) else None;
    l.(tasks := l.tasks + [Task(session, text, prior, None, false)])
  }

  predicate PriorDone(l: Life, t: Task) {
    t.prior.None? || (t.prior.value < |l.runs| && l.runs[t.prior.value].status == Ended)
  }

  function Started(l: Life, k: nat): Life
    requires k < |l.tasks|
  {
    l.(tasks := l.tasks[k := l.tasks[k].(started := true)])
  }

  function LaunchTask(l: Life, k: nat, steerable: bool): Life {
    if k >= |l.tasks| || l.tasks[k].started || !PriorDone(l, l.tasks[k]) then l
    else StartRun(Started(l, k), l.tasks[k].session, steerable)
  }

  function Step(l: Life, a: Action): Life {
    match a
    case Configure(on) => l.(enabled := on)
    case Start(s, on) => StartRun(l, s, on)
    case Steer(s, t) => SteerRun(l, s, t)
    case ToolResult(r) => LandNotes(l, r)
    case Stop(s) => StopRun(l, s)
    case Interrupt(s) => StopRun(l, s)
    case Finish(r) => FinishRun(l, r)
    case QueueTask(s, t) => QueueTaskFor(l, s, t)
    case Launch(k, on) => LaunchTask(l, k, on)
  }

  function After(l: Life, actions: seq<Action>): Life
    decreases |actions|
  {
    if actions == [] then l else After(Step(l, actions[0]), actions[1..])
  }

  // ---- the ledger -------------------------------------------------------------------

  /** The texts of run r's notes with this fate, in order of arrival. */
  function Texts(ledger: seq<Entry>, r: nat, fate: Fate): seq<string> {
    if ledger == [] then []
    else
      var n := |ledger| - 1;
      Texts(ledger[..n], r, fate) + TextOf(ledger[n], r, fate)
  }

  function TextOf(e: Entry, r: nat, fate: Fate): seq<string> {
    if e.run == r && e.fate == fate then [e.text] else []
  }

  lemma TextsSnoc(ledger: seq<Entry>, e: Entry, r: nat, fate: Fate)
    ensures Texts(ledger + [e], r, fate) == Texts(ledger, r, fate) + TextOf(e, r, fate)
  {
    assert (ledger + [e])[..|ledger|] == ledger;
  }

  /** A channel is a queue: no note leaves it before an earlier one does. */
  ghost predicate Fifo(ledger: seq<Entry>, r: nat) {
    forall i, j :: 0 <= i < j < |ledger| && ledger[i].run == r && ledger[j].run == r && ledger[j].fate != Waiting
                   ==> ledger[i].fate != Waiting
  }

  /** Settling moves the waiting notes behind those that met the fate before. */
  lemma {:induction false} SettleTexts(ledger: seq<Entry>, r: nat, fate: Fate)
    requires Fifo(ledger, r) && fate != Waiting
    ensures Texts(Settle(ledger, r, fate), r, fate) == Texts(ledger, r, fate) + Texts(ledger, r, Waiting)
    ensures Texts(Settle(ledger, r, fate), r, Waiting) == []
    decreases |ledger|
  {
    hide Texts;
    hide Settle;
    TextsNone(r, fate);
    TextsNone(r, Waiting);
    if ledger != [] {
      var n := |ledger| - 1;
      var init, e := ledger[..n], ledger[n];
      assert Fifo(init, r);
      SettleTexts(init, r, fate);
      assert init + [e] == ledger;
      SettleSnoc(init, e, r, fate);
      if e.run == r && e.fate != Waiting {
        NoneWaiting(init, r);
      }
      var a, b := Texts(init, r, fate), Texts(init, r, Waiting);
      var x, y := TextOf(e, r, fate), TextOf(e, r, Waiting);
      assert (a + b) + TextOf(Settled(e, r, fate), r, fate) == (a + x) + (b + y);
    }
  }

  lemma TextsNone(r: nat, fate: Fate)
    ensures Texts([], r, fate) == [] && Settle([], r, fate) == []
  {}

  lemma SettleSnoc(init: seq<Entry>, e: Entry, r: nat, fate: Fate)
    requires fate != Waiting
    ensures Settle(init + [e], r, fate) == Settle(init, r, fate) + [Settled(e, r, fate)]
    ensures Texts(init + [e], r, fate) == Texts(init, r, fate) + TextOf(e, r, fate)
    ensures Texts(init + [e], r, Waiting) == Texts(init, r, Waiting) + TextOf(e, r, Waiting)
    ensures Texts(Settle(init + [e], r, fate), r, fate) == Texts(Settle(init, r, fate), r, fate) + TextOf(Settled(e, r, fate), r, fate)
    ensures Texts(Settle(init + [e], r, fate), r, Waiting) == Texts(Settle(init, r, fate), r, Waiting) + TextOf(Settled(e, r, fate), r, Waiting)
  {
    hide Texts;
    TextsSnoc(init, e, r, fate);
    TextsSnoc(init, e, r, Waiting);
    TextsSnoc(Settle(init, r, fate), Settled(e, r, fate), r, fate);
    TextsSnoc(Settle(init, r, fate), Settled(e, r, fate), r, Waiting);
  }

  lemma {:induction false} NoneWaiting(ledger: seq<Entry>, r: nat)
    requires forall i :: 0 <= i < |ledger| && ledger[i].run == r ==> ledger[i].fate != Waiting
    ensures Texts(ledger, r, Waiting) == []
    decreases |ledger|
  {
    if ledger != [] { NoneWaiting(ledger[..|ledger| - 1], r); }
  }

  /** Settling run r's notes changes no other list. */
  lemma {:induction false} SettleOthers(ledger: seq<Entry>, r: nat, fate: Fate, q: nat, f: Fate)
    requires q != r || (f != fate && f != Waiting)
    ensures Texts(Settle(ledger, r, fate), q, f) == Texts(ledger, q, f)
    decreases |ledger|
  {
    if ledger != [] {
      var n := |ledger| - 1;
      SettleOthers(ledger[..n], r, fate, q, f);
      TextsSnoc(Settle(ledger[..n], r, fate), Settled(ledger[n], r, fate), q, f);
    }
  }

  lemma {:induction false} TextsHas(ledger: seq<Entry>, r: nat, fate: Fate, k: nat)
    requires k < |ledger| && ledger[k].run == r && ledger[k].fate == fate
    ensures ledger[k].text in Texts(ledger, r, fate)
    decreases |ledger|
  {
    var n := |ledger| - 1;
    if k < n {
      TextsHas(ledger[..n], r, fate, k);
    }
  }

  // ---- the invariant ---------------------------------------------------------------------

  /** The tables name runs of that session that have not ended. */
  ghost predicate TablesOk(l: Life) {
    && (forall s :: s in l.running ==>
          l.running[s] < |l.runs| && l.runs[l.running[s]].session == s && l.runs[l.running[s]].status != Ended)
    && (forall s :: s in l.steering ==>
          && l.steering[s] < |l.runs| && l.runs[l.steering[s]].session == s
          && l.runs[l.steering[s]].status != Ended && l.runs[l.steering[s]].channel)
  }

  /** Every list run r holds is the ledger's: what waits on it, and what landed, in order of arrival. */
  ghost predicate RunOk(run: Run, r: nat, ledger: seq<Entry>) {
    && run.pending == Texts(ledger, r, Waiting) && run.landed == Texts(ledger, r, LandedOn)
    && |run.pending| <= S.STEER_MAX_PENDING
    && Fifo(ledger, r)
    && (run.status == Ended || !run.channel ==> run.pending == [])
  }

  ghost predicate NotesOk(l: Life) {
    && (forall k :: 0 <= k < |l.ledger| ==> l.ledger[k].run < |l.runs| && 0 < |l.ledger[k].text| <= S.STEER_MAX_CHARS)
    && (forall r :: 0 <= r < |l.runs| ==> RunOk(l.runs[r], r, l.ledger))
  }

  /** A late task waits for nothing and re-sends all the late notes of its run, in order. */
  ghost predicate LateTaskOk(t: Task, runs: seq<Run>, ledger: seq<Entry>) {
    t.late.Some? ==>
      var r := t.late.value;
      && t.prior == None && r < |runs| && runs[r].status == Ended && t.session == runs[r].session
      && Texts(ledger, r, Resent) != [] && t.text == Join(Texts(ledger, r, Resent), "\n")
  }

  /** A run's late notes are re-sent by one task and no other. */
  ghost predicate LateOk(l: Life) {
    && (forall k :: 0 <= k < |l.tasks| ==> LateTaskOk(l.tasks[k], l.runs, l.ledger))
    && (forall i, j :: 0 <= i < j < |l.tasks| && l.tasks[i].late.Some? ==> l.tasks[i].late != l.tasks[j].late)
    && (forall r :: 0 <= r < |l.runs| && Texts(l.ledger, r, Resent) != [] ==> HasLateTask(l.tasks, r))
  }

  ghost predicate HasLateTask(tasks: seq<Task>, r: nat) {
    exists k :: 0 <= k < |tasks| && tasks[k].late == Some(r)
  }

  /** A queued task has started only after the run it was queued behind. */
  ghost predicate QueueOk(l: Life) {
    forall k :: 0 <= k < |l.tasks| ==>
      && (l.tasks[k].prior.Some? ==> l.tasks[k].prior.value < |l.runs|)
      && (l.tasks[k].started ==> PriorDone(l, l.tasks[k]))
  }

  ghost predicate Inv(l: Life) {
    TablesOk(l) && NotesOk(l) && LateOk(l) && QueueOk(l)
  }

  // ---- what every step keeps ---------------------------------------------------------------

  lemma SettleRunOk(run: Run, r: nat, ledger: seq<Entry>, q: nat, fate: Fate)
    requires RunOk(run, r, ledger) && q != r
    ensures RunOk(run, r, Settle(ledger, q, fate))
  {
    hide Settle;
    SettleOthers(ledger, q, fate, r, Waiting);
    SettleOthers(ledger, q, fate, r, LandedOn);
  }

  /** Emptying run r's channel, with one fate for all its notes, keeps the notes straight. */
  lemma SettleKeeps(l: Life, r: nat, fate: Fate, run: Run)
    requires NotesOk(l) && r < |l.runs| && fate != Waiting
    requires run.pending == [] && run.landed == l.runs[r].landed + (if fate == LandedOn then l.runs[r].pending else [])
    ensures NotesOk(l.(runs := l.runs[r := run], ledger := Settle(l.ledger, r, fate)))
  {
    hide Settle;
    hide Texts;
    var ledger := Settle(l.ledger, r, fate);
    assert RunOk(l.runs[r], r, l.ledger);
    SettleTexts(l.ledger, r, fate);
    if fate != LandedOn { SettleOthers(l.ledger, r, fate, r, LandedOn); }
    assert RunOk(run, r, ledger);
    forall q | 0 <= q < |l.runs| && q != r ensures RunOk(l.runs[q], q, ledger) {
      SettleRunOk(l.runs[q], q, l.ledger, r, fate);
    }
  }

  /** No run of a session loses its place, and none comes back to life. */
  ghost predicate Grown(runs: seq<Run>, runs': seq<Run>) {
    && |runs| <= |runs'|
    && forall r :: 0 <= r < |runs| ==>
         runs'[r].session == runs[r].session && (runs[r].status == Ended ==> runs'[r].status == Ended)
  }

  lemma LateKeeps(l: Life, l': Life)
    requires LateOk(l) && l'.tasks == l.tasks && Grown(l.runs, l'.runs)
    requires forall r :: 0 <= r < |l'.runs| ==> Texts(l'.ledger, r, Resent) == Texts(l.ledger, r, Resent)
    requires forall r :: |l.runs| <= r < |l'.runs| ==> Texts(l.ledger, r, Resent) == []
    ensures LateOk(l')
  {
    hide Texts;
    forall k | 0 <= k < |l'.tasks| ensures LateTaskOk(l'.tasks[k], l'.runs, l'.ledger) {
      assert LateTaskOk(l.tasks[k], l.runs, l.ledger);
    }
  }

  lemma QueueKeeps(l: Life, l': Life)
    requires QueueOk(l) && l'.tasks == l.tasks && Grown(l.runs, l'.runs)
    ensures QueueOk(l')
  {}

  lemma {:induction false} NoTexts(ledger: seq<Entry>, r: nat, fate: Fate)
    requires forall k :: 0 <= k < |ledger| ==> ledger[k].run != r
    ensures Texts(ledger, r, fate) == []
    decreases |ledger|
  {
    if ledger != [] { NoTexts(ledger[..|ledger| - 1], r, fate); }
  }

  lemma StartKeeps(l: Life, session: string, steerable: bool)
    requires Inv(l)
    ensures Inv(StartRun(l, session, steerable))
  {
    hide Texts;
    var l', r := StartRun(l, session, steerable), |l.runs|;
    forall f ensures Texts(l.ledger, r, f) == [] { NoTexts(l.ledger, r, f); }
    assert NotesOk(l') by {
      assert RunOk(l'.runs[r], r, l'.ledger);
      forall q | 0 <= q < r ensures RunOk(l'.runs[q], q, l'.ledger) {
        assert RunOk(l.runs[q], q, l.ledger);
      }
    }
    LateKeeps(l, l');
    QueueKeeps(l, l');
  }

  lemma SteerKeeps(l: Life, session: string, text: string)
    requires Inv(l)
    ensures Inv(SteerRun(l, session, text))
  {
    hide Texts;
    hide Strip;
    hide RunOk;
    var l' := SteerRun(l, session, text);
    if Accepts(l, session, text) {
      var r, e := l.steering[session], Entry(l.steering[session], Strip(text), Waiting);
      forall q, f ensures Texts(l'.ledger, q, f) == Texts(l.ledger, q, f) + TextOf(e, q, f) {
        TextsSnoc(l.ledger, e, q, f);
      }
      forall q | 0 <= q < |l.runs| ensures RunOk(l'.runs[q], q, l'.ledger) {
        SteerRunOk(l.runs[q], q, l.ledger, e);
      }
      LateKeeps(l, l');
      QueueKeeps(l, l');
    }
  }

  /** An accepted note joins the queue of its run and of no other. */
  lemma SteerRunOk(run: Run, q: nat, ledger: seq<Entry>, e: Entry)
    requires RunOk(run, q, ledger) && e.fate == Waiting
    requires e.run == q ==> |run.pending| < S.STEER_MAX_PENDING && run.status != Ended && run.channel
    ensures RunOk(if e.run == q then run.(pending := run.pending + [e.text]) else run, q, ledger + [e])
  {
    hide Texts;
    TextsSnoc(ledger, e, q, Waiting);
    TextsSnoc(ledger, e, q, LandedOn);
  }

  /** Emptying a channel without re-sending keeps everything in order. */
  lemma EmptyKeeps(l: Life, r: nat, fate: Fate, run: Run)
    requires Inv(l) && r < |l.runs| && (fate == LandedOn || fate == Dropped)
    requires run == l.runs[r].(pending := [], landed := run.landed)
    requires run.landed == l.runs[r].landed + (if fate == LandedOn then l.runs[r].pending else [])
    ensures Inv(l.(runs := l.runs[r := run], ledger := Settle(l.ledger, r, fate)))
  {
    hide Texts;
    hide Settle;
    var l' := l.(runs := l.runs[r := run], ledger := Settle(l.ledger, r, fate));
    SettleKeeps(l, r, fate, run);
    forall q | 0 <= q < |l'.runs| ensures Texts(l'.ledger, q, Resent) == Texts(l.ledger, q, Resent) {
      SettleOthers(l.ledger, r, fate, q, Resent);
    }
    LateKeeps(l, l');
    QueueKeeps(l, l');
  }

  lemma AbandonKeeps(l: Life, session: string)
    requires Inv(l)
    ensures Inv(AbandonNotes(l, session))
    ensures Grown(l.runs, AbandonNotes(l, session).runs)
    ensures AbandonNotes(l, session).running == l.running
  {
    hide Texts;
    hide Settle;
    if session in l.steering {
      var c := l.steering[session];
      EmptyKeeps(l, c, Dropped, l.runs[c].(pending := []));
    }
  }

  lemma CancelKeeps(l: Life, r: nat)
    requires Inv(l) && r < |l.runs| && l.runs[r].status != Ended
    ensures Inv(Cancel(l, r))
  {
    hide Texts;
    var l' := Cancel(l, r);
    forall q | 0 <= q < |l'.runs| ensures RunOk(l'.runs[q], q, l'.ledger) {
      assert RunOk(l.runs[q], q, l.ledger);
    }
    LateKeeps(l, l');
    QueueKeeps(l, l');
  }

  lemma StopKeeps(l: Life, session: string)
    requires Inv(l)
    ensures Inv(StopRun(l, session))
  {
    hide Texts;
    hide AbandonNotes;
    hide NotesOk;
    hide LateOk;
    hide QueueOk;
    if IsRunning(l, session) {
      AbandonKeeps(l, session);
      CancelKeeps(AbandonNotes(l, session), l.running[session]);
    }
  }

  lemma NothingSentYet(l: Life, r: nat)
    requires LateOk(l) && r < |l.runs| && l.runs[r].status != Ended
    ensures Texts(l.ledger, r, Resent) == [] && !HasLateTask(l.tasks, r)
  {
    hide Texts;
    forall k | 0 <= k < |l.tasks| ensures l.tasks[k].late != Some(r) {
      assert LateTaskOk(l.tasks[k], l.runs, l.ledger);
    }
  }

  lemma FinishKeeps(l: Life, r: nat)
    requires Inv(l)
    ensures Inv(FinishRun(l, r))
  {
    hide Texts;
    hide Settle;
    hide Join;
    var l' := FinishRun(l, r);
    if r < |l.runs| && l.runs[r].status != Ended {
      var run := l.runs[r];
      SettleKeeps(l, r, Resent, run.(pending := [], status := Ended));
      NothingSentYet(l, r);
      SettleTexts(l.ledger, r, Resent);
      assert Texts(l'.ledger, r, Resent) == run.pending;
      forall q | 0 <= q < |l.runs| && q != r ensures Texts(l'.ledger, q, Resent) == Texts(l.ledger, q, Resent) {
        SettleOthers(l.ledger, r, Resent, q, Resent);
      }
      FinishLate(l, l', r);
    }
  }

  lemma FinishLate(l: Life, l': Life, r: nat)
    requires Inv(l) && r < |l.runs| && l.runs[r].status != Ended && !HasLateTask(l.tasks, r)
    requires l' == FinishRun(l, r)
    requires Texts(l'.ledger, r, Resent) == l.runs[r].pending
    requires forall q :: 0 <= q < |l.runs| && q != r ==> Texts(l'.ledger, q, Resent) == Texts(l.ledger, q, Resent)
    ensures LateOk(l') && QueueOk(l')
  {
    hide Texts;
    hide Settle;
    hide Join;
    forall k | 0 <= k < |l'.tasks| ensures LateTaskOk(l'.tasks[k], l'.runs, l'.ledger) {
      if k < |l.tasks| {
        assert LateTaskOk(l.tasks[k], l.runs, l.ledger);
        assert l.tasks[k].late != Some(r);
      }
    }
    forall q | 0 <= q < |l'.runs| && Texts(l'.ledger, q, Resent) != [] ensures HasLateTask(l'.tasks, q) {
      if q != r {
        var k :| 0 <= k < |l.tasks| && l.tasks[k].late == Some(q);
        assert l'.tasks[k].late == Some(q);
      } else {
        assert l'.tasks[|l.tasks|].late == Some(q);
      }
    }
  }

  lemma QueueTaskKeeps(l: Life, session: string, text: string)
    requires Inv(l)
    ensures Inv(QueueTaskFor(l, session, text))
  {
    hide NotesOk;
    hide LateOk;
    var l' := QueueTaskFor(l, session, text);
    assert l'.tasks[..|l.tasks|] == l.tasks;
    AddTask(l, l');
    NotesStay(l, l');
  }

  lemma AddTask(l: Life, l': Life)
    requires LateOk(l) && |l'.tasks| == |l.tasks| + 1 && l' == l.(tasks := l'.tasks)
    requires l'.tasks[..|l.tasks|] == l.tasks && l'.tasks[|l.tasks|].late == None
    ensures LateOk(l')
  {
    hide Texts;
    assert forall k :: 0 <= k < |l.tasks| ==> l'.tasks[k] == l.tasks[k];
    forall r | 0 <= r < |l'.runs| && Texts(l'.ledger, r, Resent) != [] ensures HasLateTask(l'.tasks, r) {
      var k :| 0 <= k < |l.tasks| && l.tasks[k].late == Some(r);
      assert l'.tasks[k].late == Some(r);
    }
  }

  lemma StartedKeeps(l: Life, k: nat)
    requires Inv(l) && k < |l.tasks| && PriorDone(l, l.tasks[k])
    ensures Inv(Started(l, k))
  {
    hide Texts;
    hide NotesOk;
    var m := Started(l, k);
    forall r | 0 <= r < |m.runs| && Texts(m.ledger, r, Resent) != [] ensures HasLateTask(m.tasks, r) {
      var i :| 0 <= i < |l.tasks| && l.tasks[i].late == Some(r);
      assert m.tasks[i].late == Some(r);
    }
    forall i | 0 <= i < |m.tasks| ensures LateTaskOk(m.tasks[i], m.runs, m.ledger) {
      assert LateTaskOk(l.tasks[i], l.runs, l.ledger);
    }
    NotesStay(l, m);
  }

  lemma NotesStay(l: Life, l': Life)
    requires NotesOk(l) && l'.runs == l.runs && l'.ledger == l.ledger
    ensures NotesOk(l')
  {
    hide RunOk;
  }

  lemma LaunchKeeps(l: Life, k: nat, steerable: bool)
    requires Inv(l)
    ensures Inv(LaunchTask(l, k, steerable))
  {
    hide Texts;
    if k < |l.tasks| && !l.tasks[k].started && PriorDone(l, l.tasks[k]) {
      StartedKeeps(l, k);
      StartKeeps(Started(l, k), l.tasks[k].session, steerable);
    }
  }

  lemma StepKeeps(l: Life, a: Action)
    requires Inv(l)
    ensures Inv(Step(l, a))
  {
    hide Texts;
    hide StartRun;
    hide SteerRun;
    hide StopRun;
    hide FinishRun;
    hide LaunchTask;
    hide QueueTaskFor;
    hide Settle;
    match a
    case Configure(on) =>
      QueueKeeps(l, l.(enabled := on));
    case Start(s, on) => StartKeeps(l, s, on);
    case Steer(s, t) => SteerKeeps(l, s, t);
    case ToolResult(r) =>
      if r < |l.runs| {
        EmptyKeeps(l, r, LandedOn, l.runs[r].(pending := [], landed := l.runs[r].landed + l.runs[r].pending));
      }
    case Stop(s) => StopKeeps(l, s);
    case Interrupt(s) => StopKeeps(l, s);
    case Finish(r) => FinishKeeps(l, r);
    case QueueTask(s, t) => QueueTaskKeeps(l, s, t);
    case Launch(k, on) => LaunchKeeps(l, k, on);
  }

  // ---- whole runs --------------------------------------------------------------------------

  /** In every interleaving every accepted note is in exactly one place: waiting on its run, landed
      there in order of arrival, dropped, or in the one task that re-sends the run's late notes. */
  lemma {:induction false} Always(l: Life, actions: seq<Action>)
    requires Inv(l)
    ensures Inv(After(l, actions))
    decreases |actions|
  {
    hide Inv;
    hide Step;
    if actions != [] {
      StepKeeps(l, actions[0]);
      Always(Step(l, actions[0]), actions[1..]);
    }
  }

  lemma AlwaysFromInit(actions: seq<Action>)
    ensures Inv(Init) && Inv(After(Init, actions))
  {
    Always(Init, actions);
  }

  /** One entry, now and later: only a waiting note can still change. */
  predicate EntryLater(e: Entry, e': Entry) {
    e'.run == e.run && e'.text == e.text && (e.fate != Waiting ==> e'.fate == e.fate)
  }

  predicate RunLater(r: Run, r': Run) {
    r'.session == r.session && r'.channel == r.channel && r.landed <= r'.landed && (r.status == Ended ==> r'.status == Ended)
  }

  predicate TaskLater(t: Task, t': Task) {
    t' == t || t' == t.(started := true)
  }

  /** l' can come after l: nothing accepted is lost, no fate is taken back, nothing landed is
      reordered. */
  ghost predicate Later(l: Life, l': Life) {
    && |l.ledger| <= |l'.ledger| && (forall k :: 0 <= k < |l.ledger| ==> EntryLater(l.ledger[k], l'.ledger[k]))
    && |l.runs| <= |l'.runs| && (forall r :: 0 <= r < |l.runs| ==> RunLater(l.runs[r], l'.runs[r]))
    && |l.tasks| <= |l'.tasks| && (forall k :: 0 <= k < |l.tasks| ==> TaskLater(l.tasks[k], l'.tasks[k]))
  }

  lemma LaterTrans(a: Life, b: Life, c: Life)
    requires Later(a, b) && Later(b, c)
    ensures Later(a, c)
  {
    forall k | 0 <= k < |a.ledger| ensures EntryLater(a.ledger[k], c.ledger[k]) {
      assert EntryLater(a.ledger[k], b.ledger[k]) && EntryLater(b.ledger[k], c.ledger[k]);
    }
    forall r | 0 <= r < |a.runs| ensures RunLater(a.runs[r], c.runs[r]) {
      assert RunLater(a.runs[r], b.runs[r]) && RunLater(b.runs[r], c.runs[r]);
    }
    forall k | 0 <= k < |a.tasks| ensures TaskLater(a.tasks[k], c.tasks[k]) {
      assert TaskLater(a.tasks[k], b.tasks[k]) && TaskLater(b.tasks[k], c.tasks[k]);
    }
  }

  lemma StopLater(l: Life, session: string)
    ensures Later(l, StopRun(l, session))
  {
    hide Settle;
  }

  lemma FinishLater(l: Life, r: nat)
    ensures Later(l, FinishRun(l, r))
  {
    hide Settle;
    hide Join;
  }

  lemma LandLater(l: Life, r: nat)
    ensures Later(l, LandNotes(l, r))
  {
    hide Settle;
  }

  lemma SteerLater(l: Life, session: string, text: string)
    ensures Later(l, SteerRun(l, session, text))
  {
    hide Strip;
  }

  lemma LaunchLater(l: Life, k: nat, steerable: bool)
    ensures Later(l, LaunchTask(l, k, steerable))
  {
  }

  lemma StepLater(l: Life, a: Action)
    ensures Later(l, Step(l, a))
  {
    hide StopRun;
    hide FinishRun;
    hide LandNotes;
    hide SteerRun;
    hide LaunchTask;
    match a
    case Steer(s, t) => SteerLater(l, s, t);
    case ToolResult(r) => LandLater(l, r);
    case Stop(s) => StopLater(l, s);
    case Interrupt(s) => StopLater(l, s);
    case Finish(r) => FinishLater(l, r);
    case Launch(k, on) => LaunchLater(l, k, on);
    case _ =>
  }

  lemma {:induction false} AfterLater(l: Life, actions: seq<Action>)
    ensures Later(l, After(l, actions))
    decreases |actions|
  {
    hide Step;
    hide Later;
    if actions == [] {
      StaysLater(l);
    } else {
      StepLater(l, actions[0]);
      AfterLater(Step(l, actions[0]), actions[1..]);
      LaterTrans(l, Step(l, actions[0]), After(l, actions));
    }
  }

  lemma StaysLater(l: Life)
    ensures Later(l, l)
  {}

  /** A stop drops what waits on the session's channel, once and for all, and no other note. */
  lemma StopIsFinal(l: Life, session: string, after: seq<Action>, k: nat)
    requires Inv(l) && IsRunning(l, session) && k < |l.ledger| && l.ledger[k].fate == Waiting
    ensures Step(l, Stop(session)).ledger[k].fate ==
      if session in l.steering && l.ledger[k].run == l.steering[session] then Dropped else Waiting
    ensures session in l.steering && l.ledger[k].run == l.steering[session] ==>
      k < |After(Step(l, Stop(session)), after).ledger| && After(Step(l, Stop(session)), after).ledger[k].fate == Dropped
  {
    hide Settle;
    hide Texts;
    var m := Step(l, Stop(session));
    AfterLater(m, after);
    assert EntryLater(m.ledger[k], After(m, after).ledger[k]);
  }

  /** No note of the session that was waiting when it was stopped lands on a run or comes back. */
  ghost predicate NotesSilenced(l: Life, session: string, l': Life)
    requires NotesOk(l)
  {
    forall k :: 0 <= k < |l.ledger| && l.runs[l.ledger[k].run].session == session && l.ledger[k].fate == Waiting ==>
      k < |l'.ledger| && l'.ledger[k].fate != LandedOn && l'.ledger[k].fate != Resent
  }

  /** No follow-up of the session's late notes that had not started when it was stopped starts. */
  predicate FollowUpsSilenced(l: Life, session: string, l': Life) {
    forall k :: 0 <= k < |l.tasks| && l.tasks[k].session == session && l.tasks[k].late.Some? && !l.tasks[k].started ==>
      k < |l'.tasks| && !l'.tasks[k].started
  }

  /** Nothing accepted for the session before it was stopped comes up again, as a note or as a follow-up. */
  ghost predicate Silenced(l: Life, session: string, after: seq<Action>)
    requires NotesOk(l)
  {
    var l' := After(Step(l, Stop(session)), after);
    NotesSilenced(l, session, l') && FollowUpsSilenced(l, session, l')
  }

  /** A stop reaches every note of the session: it finds a run to stop, and only the channel registered
      for the session holds notes for it. */
  predicate Reached(l: Life, session: string) {
    forall r :: 0 <= r < |l.runs| && l.runs[r].session == session && l.runs[r].pending != [] ==>
      IsRunning(l, session) && session in l.steering && l.steering[session] == r
  }

  /** Every follow-up of the session's late notes has started. */
  predicate CaughtUp(l: Life, session: string) {
    forall k :: 0 <= k < |l.tasks| && l.tasks[k].session == session && l.tasks[k].late.Some? ==> l.tasks[k].started
  }

  lemma {:induction false} SomeWaiting(ledger: seq<Entry>, r: nat) returns (k: nat)
    requires Texts(ledger, r, Waiting) != []
    ensures k < |ledger| && ledger[k].run == r && ledger[k].fate == Waiting
    decreases |ledger|
  {
    var n := |ledger| - 1;
    if ledger[n].run == r && ledger[n].fate == Waiting {
      k := n;
    } else {
      k := SomeWaiting(ledger[..n], r);
    }
  }

  /** When /stop means stop, in every state: exactly when it reaches every run of the session that holds
      notes, and no follow-up of late notes is still to start. */
  lemma StopSilences(l: Life, session: string)
    requires Inv(l)
    ensures Reached(l, session) && CaughtUp(l, session) <==> forall after :: Silenced(l, session, after)
  {
    hide Texts;
    hide Settle;
    hide Step;
    hide After;
    hide NotesSilenced;
    if !Reached(l, session) {
      var r: nat :| r < |l.runs| && l.runs[r].session == session && l.runs[r].pending != []
                    && !(IsRunning(l, session) && session in l.steering && l.steering[session] == r);
      StopMisses(l, session, r);
    } else if !CaughtUp(l, session) {
      var k: nat :| k < |l.tasks| && l.tasks[k].session == session && l.tasks[k].late.Some? && !l.tasks[k].started;
      FollowUpStarts(l, session, k);
    } else {
      forall after ensures Silenced(l, session, after) {
        ReachedSilences(l, session, after);
      }
    }
  }

  lemma ReachedSilences(l: Life, session: string, after: seq<Action>)
    requires Inv(l) && Reached(l, session)
    ensures NotesSilenced(l, session, After(Step(l, Stop(session)), after))
  {
    hide Texts;
    hide Settle;
    hide Step;
    hide After;
    var l' := After(Step(l, Stop(session)), after);
    forall k | 0 <= k < |l.ledger| && l.runs[l.ledger[k].run].session == session && l.ledger[k].fate == Waiting
      ensures k < |l'.ledger| && l'.ledger[k].fate == Dropped
    {
      var r := l.ledger[k].run;
      assert RunOk(l.runs[r], r, l.ledger);
      TextsHas(l.ledger, r, Waiting, k);
      StopIsFinal(l, session, after, k);
    }
  }

  /** A stop leaves the follow-ups alone: one that has not started can start right after it. */
  lemma FollowUpStarts(l: Life, session: string, k: nat)
    requires Inv(l) && k < |l.tasks| && l.tasks[k].session == session && l.tasks[k].late.Some? && !l.tasks[k].started
    ensures !Silenced(l, session, [Launch(k, true)])
    ensures var l' := After(Step(l, Stop(session)), [Launch(k, true)]);
            |l'.runs| == |l.runs| + 1 && l'.runs[|l.runs|].session == session && IsRunning(l', session)
  {
    hide Texts;
    hide Settle;
    hide NotesSilenced;
    var m := Step(l, Stop(session));
    assert LateTaskOk(l.tasks[k], l.runs, l.ledger);
    assert m.tasks == l.tasks && |m.runs| == |l.runs|;
    var l' := Step(m, Launch(k, true));
    assert After(m, [Launch(k, true)]) == After(l', []) == l';
    assert l'.tasks[k].started;
  }

  /** A run that a stop does not reach brings its notes back as a task when it ends. */
  lemma StopMisses(l: Life, session: string, r: nat)
    requires Inv(l)
    requires r < |l.runs| && l.runs[r].session == session && l.runs[r].pending != []
    requires !(IsRunning(l, session) && session in l.steering && l.steering[session] == r)
    ensures !Silenced(l, session, [Finish(r)])
    ensures HasLateTask(After(Step(l, Stop(session)), [Finish(r)]).tasks, r)
  {
    hide Texts;
    hide Settle;
    hide Join;
    assert RunOk(l.runs[r], r, l.ledger);
    var k := SomeWaiting(l.ledger, r);
    var m := Step(l, Stop(session));
    assert m.ledger[k] == l.ledger[k] && m.runs[r].pending == l.runs[r].pending && m.runs[r].status != Ended;
    var l' := Step(m, Finish(r));
    assert After(m, [Finish(r)]) == After(l', []) == l';
    assert l'.ledger[k].fate == Resent;
    assert l'.tasks[|m.tasks|].late == Some(r);
  }

  // ---- runs that do not overlap ---------------------------------------------------------------

  /** Every run in flight is the one its session is registered under. */
  predicate Alone(l: Life) {
    forall r :: 0 <= r < |l.runs| && l.runs[r].status != Ended ==>
      && l.runs[r].session in l.running && l.running[l.runs[r].session] == r
      && (l.runs[r].channel ==> l.runs[r].session in l.steering && l.steering[l.runs[r].session] == r)
  }

  predicate Idle(l: Life, session: string) {
    forall r :: 0 <= r < |l.runs| && l.runs[r].session == session ==> l.runs[r].status == Ended
  }

  /** No run starts on a session that has one in flight. */
  predicate Apart(l: Life, actions: seq<Action>)
    decreases |actions|
  {
    actions != [] ==>
      && (match actions[0]
          case Start(s, _) => Idle(l, s)
          case Launch(k, _) => k < |l.tasks| ==> Idle(l, l.tasks[k].session)
          case _ => true)
      && Apart(Step(l, actions[0]), actions[1..])
  }

  lemma AloneFinish(l: Life, r: nat)
    requires Inv(l) && Alone(l)
    ensures Alone(FinishRun(l, r))
  {
    hide Settle;
    hide Join;
    hide NotesOk;
    hide LateOk;
    hide QueueOk;
  }

  lemma AloneStart(l: Life, session: string, steerable: bool)
    requires Inv(l) && Alone(l) && Idle(l, session)
    ensures Alone(StartRun(l, session, steerable))
  {
    hide NotesOk;
    hide LateOk;
    hide QueueOk;
  }

  lemma AloneStep(l: Life, a: Action)
    requires Inv(l) && Alone(l) && Apart(l, [a])
    ensures Alone(Step(l, a))
  {
    hide Settle;
    hide Texts;
    hide Strip;
    hide NotesOk;
    hide LateOk;
    hide QueueOk;
    hide StartRun;
    hide FinishRun;
    match a
    case Start(s, on) => AloneStart(l, s, on);
    case Finish(r) => AloneFinish(l, r);
    case Launch(k, on) => AloneLaunch(l, k, on);
    case _ =>
  }

  lemma AloneLaunch(l: Life, k: nat, steerable: bool)
    requires Inv(l) && Alone(l) && (k < |l.tasks| ==> Idle(l, l.tasks[k].session))
    ensures Alone(LaunchTask(l, k, steerable))
  {
    hide NotesOk;
    hide LateOk;
    hide QueueOk;
  }

  lemma {:induction false} AloneAfter(l: Life, actions: seq<Action>)
    requires Inv(l) && Alone(l) && Apart(l, actions)
    ensures Alone(After(l, actions))
    decreases |actions|
  {
    hide Inv;
    hide Step;
    hide Alone;
    if actions != [] {
      StepKeeps(l, actions[0]);
      assert Apart(l, [actions[0]]);
      AloneStep(l, actions[0]);
      AloneAfter(Step(l, actions[0]), actions[1..]);
    }
  }

  /** Without overlap no waiting note resurfaces after a stop, whatever happens next; and nothing at all
      does exactly if no follow-up is still to start. */
  lemma ApartStops(actions: seq<Action>, session: string)
    requires Apart(Init, actions)
    ensures NotesOk(After(Init, actions))
    ensures forall after :: NotesSilenced(After(Init, actions), session, After(Step(After(Init, actions), Stop(session)), after))
    ensures CaughtUp(After(Init, actions), session) <==> forall after :: Silenced(After(Init, actions), session, after)
  {
    hide Apart;
    hide Silenced;
    hide Texts;
    hide After;
    hide LateOk;
    hide QueueOk;
    AlwaysFromInit(actions);
    AloneAfter(Init, actions);
    var l := After(Init, actions);
    forall r | 0 <= r < |l.runs| && l.runs[r].session == session && l.runs[r].pending != []
      ensures IsRunning(l, session) && session in l.steering && l.steering[session] == r
    {
      assert RunOk(l.runs[r], r, l.ledger);
    }
    StopSilences(l, session);
    forall after ensures NotesSilenced(l, session, After(Step(l, Stop(session)), after)) {
      ReachedSilences(l, session, after);
    }
  }

  /** Without overlap too a note can come back, if its run ended before it landed: the stop finds nothing
      to stop, and the follow-up that carries the note starts after it. */
  lemma FollowUpResends(session: string)
    requires !(ROUTINE <= session)
    ensures var actions := [Start(session, true), Steer(session, "a"), Finish(0)];
            var l := After(Init, actions);
            && Apart(Init, actions) && l.ledger == [Entry(0, "a", Resent)]
            && l.tasks == [Task(session, "a", None, Some(0), false)]
            && Reached(l, session) && Step(l, Stop(session)) == l
            && NotesOk(l) && !Silenced(l, session, [Launch(0, true)])
  {
    hide Texts;
    hide Silenced;
    hide Step;
    hide NotesOk;
    var a, b, c := Start(session, true), Steer(session, "a"), Finish(0);
    var l1 := Step(Init, a);
    var l2 := Step(l1, b);
    var l3 := Step(l2, c);
    LateStates(session);
    assert [a, b, c][1..] == [b, c] && [b, c][1..] == [c] && [c][1..] == [];
    assert After(l2, [c]) == After(l3, []) == l3;
    assert After(l1, [b, c]) == After(l2, [c]);
    assert Apart(l2, [c]);
    assert [b, c][0] == b && Apart(l1, [b, c]);
    assert [a, b, c][0] == a && Idle(Init, session);
    AlwaysFromInit([a, b, c]);
    FollowUpStarts(l3, session, 0);
  }

  /** A run that ends with a note waiting. */
  lemma LateStates(session: string)
    requires !(ROUTINE <= session)
    ensures var l := Step(Step(Step(Init, Start(session, true)), Steer(session, "a")), Finish(0));
            && l.ledger == [Entry(0, "a", Resent)] && l.tasks == [Task(session, "a", None, Some(0), false)]
            && Reached(l, session) && Step(l, Stop(session)) == l
  {
    hide StopRun;
    hide LaunchTask;
    hide LandNotes;
    hide QueueTaskFor;
    hide SteerRun;
    hide Strip;
    var m := OneNote(session);
    assert Join(["a"], "\n") == "a";
    var l := Step(m, Finish(0));
    assert session !in l.running;
    NothingToStop(l, session);
  }

  lemma NothingToStop(l: Life, session: string)
    requires session !in l.running
    ensures Step(l, Stop(session)) == l
  {
  }

  /** With overlap one does: the second run takes the session's channel, the stop empties that one,
      and the first run re-sends its note when it ends. */
  lemma OverlapResends(session: string)
    requires !(ROUTINE <= session)
    ensures var actions := [Start(session, true), Steer(session, "a"), Start(session, true)];
            && IsRunning(After(Init, actions), session) && NotesOk(After(Init, actions))
            && !Silenced(After(Init, actions), session, [Finish(0)])
  {
    hide Texts;
    hide Silenced;
    hide Join;
    hide Step;
    hide NotesOk;
    var a, b, c := Start(session, true), Steer(session, "a"), Start(session, true);
    var l1 := Step(Init, a);
    var l2 := Step(l1, b);
    var l3 := Step(l2, c);
    OverlapStates(session);
    assert [a, b, c][1..] == [b, c] && [b, c][1..] == [c] && [c][1..] == [];
    assert After(l2, [c]) == After(l3, []) == l3;
    assert After(l1, [b, c]) == After(l2, [c]);
    AlwaysFromInit([a, b, c]);
    StopMisses(l3, session, 0);
  }

  /** A stop can also find nothing to stop: a second run without a channel takes the session's place in
      the table, leaves it, and the first run, which still holds a note, is no longer registered. */
  lemma UnregisteredResends(session: string)
    requires !(ROUTINE <= session)
    ensures var actions := [Start(session, true), Steer(session, "a"), Start(session, false), Finish(1)];
            && !IsRunning(After(Init, actions), session) && NotesOk(After(Init, actions))
            && |After(Init, actions).runs| == 2 && After(Init, actions).runs[0].status == Working
            && !Silenced(After(Init, actions), session, [Finish(0)])
  {
    hide Texts;
    hide Silenced;
    hide Join;
    hide Step;
    hide NotesOk;
    var a, b, c, d := Start(session, true), Steer(session, "a"), Start(session, false), Finish(1);
    var l1 := Step(Init, a);
    var l2 := Step(l1, b);
    var l3 := Step(l2, c);
    var l4 := Step(l3, d);
    UnregisteredStates(session);
    assert [a, b, c, d][1..] == [b, c, d] && [b, c, d][1..] == [c, d] && [c, d][1..] == [d] && [d][1..] == [];
    assert After(l3, [d]) == After(l4, []) == l4;
    assert After(l2, [c, d]) == After(l3, [d]);
    assert After(l1, [b, c, d]) == After(l2, [c, d]);
    AlwaysFromInit([a, b, c, d]);
    StopMisses(l4, session, 0);
  }

  lemma UnregisteredStates(session: string)
    requires !(ROUTINE <= session)
    ensures var l3 := Step(Step(Step(Init, Start(session, true)), Steer(session, "a")), Start(session, false));
            var l := Step(l3, Finish(1));
            && |l.runs| == 2 && l.runs[0] == Run(session, true, ["a"], [], Working) && !IsRunning(l, session)
  {
    hide Step;
    var l2 := OneNote(session);
    var l3 := Step(l2, Start(session, false));
    StartedAndEnded(l2, session);
  }

  /** A run that starts without a channel and ends takes its session out of the table of runs. */
  lemma StartedAndEnded(l: Life, session: string)
    ensures var l' := Step(Step(l, Start(session, false)), Finish(|l.runs|));
            && l'.runs == l.runs + [Run(session, false, [], [], Ended)] && !IsRunning(l', session)
  {
    hide Settle;
    hide StopRun;
    hide LaunchTask;
    hide LandNotes;
    hide SteerRun;
    hide QueueTaskFor;
    var m := Step(l, Start(session, false));
    assert m.runs == l.runs + [Run(session, false, [], [], Working)];
    assert m.runs[|l.runs| := Run(session, false, [], [], Ended)] == l.runs + [Run(session, false, [], [], Ended)];
  }

  lemma OneLetter()
    ensures Strip("a") == "a"
  {
    hide Strip;
    StripsToItself("a");
  }

  /** One run, and one note waiting on it. */
  lemma OneNote(session: string) returns (l: Life)
    requires !(ROUTINE <= session)
    ensures l == Step(Step(Init, Start(session, true)), Steer(session, "a"))
    ensures l.runs == [Run(session, true, ["a"], [], Working)]
    ensures l.steering == map[session := 0] && l.running == map[session := 0]
    ensures l.ledger == [Entry(0, "a", Waiting)] && l.tasks == []
  {
    hide Settle;
    hide StopRun;
    hide FinishRun;
    hide LaunchTask;
    hide LandNotes;
    hide QueueTaskFor;
    hide Strip;
    var l1 := Step(Init, Start(session, true));
    OneLetter();
    assert l1.runs == [Run(session, true, [], [], Working)];
    assert Accepts(l1, session, "a");
    l := Step(l1, Steer(session, "a"));
    assert l1.steering[session] == 0 && l1.runs[0].pending + ["a"] == ["a"];
    assert l.runs == l1.runs[0 := Run(session, true, ["a"], [], Working)];
  }

  lemma OverlapStates(session: string)
    requires !(ROUTINE <= session)
    ensures var l := Step(Step(Step(Init, Start(session, true)), Steer(session, "a")), Start(session, true));
            && |l.runs| == 2 && l.runs[0].session == session && l.runs[0].pending == ["a"]
            && IsRunning(l, session) && session in l.steering && l.steering[session] == 1
  {
    hide Settle;
    hide StopRun;
    hide FinishRun;
    hide LaunchTask;
    hide LandNotes;
    hide QueueTaskFor;
    var l := OneNote(session);
    assert StartRun(l, session, true).runs == l.runs + [Run(session, true, [], [], Working)];
  }
}
