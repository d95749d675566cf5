/** The engine's side of a run's life: the two tables, the channels, and the follow-ups it spawns. Every
    method takes exactly the step the state machine takes, and keeps its invariant. */
module Engine {
  import opened Text
  import opened Replacing
  import opened RunLife
  import opened Steering

  /** An in-flight run: who does it, and the channel it made. */
  class Job {
    const session: string
    const channel: SteerChannel?
    var status: Status

    constructor (session: string, channel: SteerChannel?)
      ensures this.session == session && this.channel == channel && status == Working
    {
      this.session, this.channel, status := session, channel, Working;
    }
  }

  /** A coroutine that runs `text` as an ordinary turn, after `prior` if there is one. */
  datatype Spawned = Spawned(session: string, text: string, prior: Job?, started: bool)

  datatype SteerReply = Disabled | NotRunning | Answer(queued: Queued)

  /** What a channel with so many notes waiting answers to a note without blanks around it. */
  function Answered(note: string, waiting: nat): Queued {
    if note == "" then Empty
    else if |note| > 2000 then TooLong(2000, |note|)
    else if waiting >= 3 then TooMany(3)
    else Queued.Accepted(waiting + 1)
  }

  lemma AnsweredIs(q: Queued, note: string, waiting: nat)
    requires q.Accepted? <==> 0 < |note| <= 2000 && waiting < 3
    requires q.Accepted? ==> q.pending == waiting + 1
    requires q.Empty? <==> note == ""
    requires q.TooLong? <==> |note| > 2000
    requires q.TooLong? ==> q == TooLong(2000, |note|)
    requires q.TooMany? ==> q == TooMany(3)
    ensures q == Answered(note, waiting)
  {
  }

  /** A job and its channel hold what the state machine's run holds. */
  ghost predicate JobIs(j: Job, r: Run)
    reads j, j.channel
  {
    && j.session == r.session && j.status == r.status && (j.channel != null <==> r.channel)
    && (j.channel != null ==>
          && j.channel.Valid() && j.channel.maxChars == STEER_MAX_CHARS && j.channel.maxPending == STEER_MAX_PENDING
          && j.channel.pending == r.pending && j.channel.delivered == |r.landed|)
  }

  ghost predicate TaskIs(t: Spawned, m: Task, jobs: seq<Job>) {
    && t.session == m.session && t.text == m.text && t.started == m.started
    && (t.prior == null <==> m.prior.None?)
    && (t.prior != null ==> m.prior.value < |jobs| && t.prior == jobs[m.prior.value])
  }

  ghost predicate Distinct(jobs: seq<Job>) {
    forall i, j :: 0 <= i < j < |jobs| ==>
      jobs[i] != jobs[j] && (jobs[i].channel != null ==> jobs[i].channel != jobs[j].channel)
  }

  ghost function Channels(jobs: seq<Job>): set<SteerChannel> {
    set k | 0 <= k < |jobs| && jobs[k].channel != null :: jobs[k].channel
  }

  ghost predicate JobsAre(jobs: seq<Job>, runs: seq<Run>)
    reads jobs, Channels(jobs)
  {
    |jobs| == |runs| && forall k :: 0 <= k < |jobs| ==> JobIs(jobs[k], runs[k])
  }

  /** The engine's tables are the state machine's. */
  ghost predicate TablesAre(running: map<string, Job>, steering: map<string, SteerChannel>, spawned: seq<Spawned>,
                            jobs: seq<Job>, l: Life) {
    && |jobs| == |l.runs| && Distinct(jobs)
    && running.Keys == l.running.Keys
    && (forall s :: s in running ==> l.running[s] < |jobs| && running[s] == jobs[l.running[s]])
    && steering.Keys == l.steering.Keys
    && (forall s :: s in steering ==> l.steering[s] < |jobs| && steering[s] == jobs[l.steering[s]].channel)
    && |spawned| == |l.tasks|
    && (forall k :: 0 <= k < |spawned| ==> TaskIs(spawned[k], l.tasks[k], jobs))
  }

  lemma TablesStay(running: map<string, Job>, steering: map<string, SteerChannel>, spawned: seq<Spawned>,
                   jobs: seq<Job>, l: Life, l': Life)
    requires TablesAre(running, steering, spawned, jobs, l)
    requires l' == l.(runs := l'.runs, ledger := l'.ledger) && |l'.runs| == |l.runs|
    ensures TablesAre(running, steering, spawned, jobs, l')
  {}

  ghost function OtherJobs(jobs: seq<Job>, i: nat): set<Job> {
    set k | 0 <= k < |jobs| && k != i :: jobs[k]
  }

  ghost function OtherChannels(jobs: seq<Job>, i: nat): set<SteerChannel> {
    set k | 0 <= k < |jobs| && k != i && jobs[k].channel != null :: jobs[k].channel
  }

  /** Every job but number i is as its run says. */
  ghost predicate OthersAre(jobs: seq<Job>, runs: seq<Run>, i: nat)
    reads OtherJobs(jobs, i), OtherChannels(jobs, i)
  {
    |jobs| == |runs| && forall k :: 0 <= k < |jobs| && k != i ==> JobIs(jobs[k], runs[k])
  }

  lemma SetAside(jobs: seq<Job>, runs: seq<Run>, i: nat)
    requires JobsAre(jobs, runs) && Distinct(jobs) && i < |jobs|
    ensures OthersAre(jobs, runs, i) && JobIs(jobs[i], runs[i]) && |jobs| == |runs|
    ensures jobs[i] !in OtherJobs(jobs, i) && (jobs[i].channel != null ==> jobs[i].channel !in OtherChannels(jobs, i))
  {
    hide JobIs;
  }

  lemma PutBack(jobs: seq<Job>, runs: seq<Run>, i: nat, runs': seq<Run>)
    requires OthersAre(jobs, runs, i) && i < |jobs| && |runs'| == |runs| && runs' == runs[i := runs'[i]]
    requires JobIs(jobs[i], runs'[i])
    ensures JobsAre(jobs, runs')
  {
    hide JobIs;
  }

  lemma JobsGrow(jobs: seq<Job>, runs: seq<Run>, job: Job, runs': seq<Run>)
    requires JobsAre(jobs, runs) && |runs'| == |runs| + 1 && runs' == runs + [runs'[|runs|]]
    requires JobIs(job, runs'[|runs|])
    ensures JobsAre(jobs + [job], runs')
  {
    hide JobIs;
  }

  lemma TablesGrow(running: map<string, Job>, steering: map<string, SteerChannel>, spawned: seq<Spawned>,
                   jobs: seq<Job>, l: Life, job: Job, l': Life)
    requires TablesAre(running, steering, spawned, jobs, l)
    requires forall k :: 0 <= k < |jobs| ==> jobs[k] != job && (job.channel != null ==> jobs[k].channel != job.channel)
    requires |l'.runs| == |l.runs| + 1 && l'.tasks == l.tasks
    requires l'.running == l.running[job.session := |l.runs|]
    requires l'.steering == if job.channel != null then l.steering[job.session := |l.runs|] else l.steering
    ensures TablesAre(running[job.session := job],
                      if job.channel != null then steering[job.session := job.channel] else steering,
                      spawned, jobs + [job], l')
  {}

  class Engine {
    var steeringOn: bool
    var running: map<string, Job>
    var steering: map<string, SteerChannel>
    var spawned: seq<Spawned>
    ghost var jobs: seq<Job>
    ghost var life: Life

    ghost predicate Valid()
      reads this, jobs, Channels(jobs)
    {
      && steeringOn == life.enabled && Inv(life)
      && TablesAre(running, steering, spawned, jobs, life) && JobsAre(jobs, life.runs)
    }

    constructor ()
      ensures Valid() && life == Init
    {
      steeringOn, running, steering, spawned := true, map[], map[], [];
      jobs, life := [], Init;
      new;
      AlwaysFromInit([]);
    }

    /** Steering is switched on or off in the configuration. */
    method Configure(on: bool)
      requires Valid()
      modifies this`steeringOn, this`life
      ensures Valid() && life == Step(old(life), RunLife.Configure(on))
    {
      StepKeeps(life, RunLife.Configure(on));
      steeringOn := on;
      life := Step(life, RunLife.Configure(on));
    }

    method IsRunning(session: string) returns (b: bool)
      requires Valid()
      ensures b <==> RunLife.IsRunning(life, session)
    {
      hide Inv;
      if session in running {
        assert JobIs(jobs[life.running[session]], life.runs[life.running[session]]);
      }
      b := session in running && running[session].status != Ended;
    }

    /** Deliver a note to the run already in flight, or say why not. */
    method Steer(session: string, text: string) returns (r: SteerReply)
      requires Valid()
      modifies Channels(jobs), this`life
      ensures Valid() && jobs == old(jobs)
      ensures life == Step(old(life), RunLife.Steer(session, text))
      ensures (r.Answer? && r.queued.Accepted?) <==> Accepts(old(life), session, text)
      ensures r.Disabled? <==> !old(life.enabled)
      ensures r.NotRunning? <==> old(life.enabled) && !Steerable(old(life), session)
      ensures running == old(running) && steering == old(steering) && spawned == old(spawned)
      ensures r.Answer? ==> session in steering && Queueing(steering[session], old(steering[session].pending), Strip(text), r.queued)
    {
      hide Strip;
      hide Inv;
      hide Step;
      hide JobsAre;
      hide TablesAre;
      SteerShape(life, session, text);
      if !steeringOn {
        return Disabled;
      }
      if session !in steering {
        NotThere(session);
        return NotRunning;
      }
      var on := IsRunning(session);
      if !on {
        return NotRunning;
      }
      Known(session);
      var q := QueueOn(session, text);
      return Answer(q);
    }

    /** The channel gave this answer to a note, and holds it now if that was yes. */
    predicate Queueing(channel: SteerChannel, before: seq<string>, note: string, q: Queued)
      reads channel`pending
    {
      q == Answered(note, |before|) && channel.pending == before + if q.Accepted? then [note] else []
    }

    /** Queue a note on the session's channel. */
    method QueueOn(session: string, text: string) returns (q: Queued)
      requires Valid() && session in steering && Steerable(life, session)
      modifies steering[session], this`life
      ensures Valid()
      ensures life == Step(old(life), RunLife.Steer(session, text))
      ensures q.Accepted? <==> Accepts(old(life), session, text)
      ensures Queueing(steering[session], old(steering[session].pending), Strip(text), q)
    {
      hide Strip;
      hide Inv;
      hide Step;
      hide JobsAre;
      hide TablesAre;
      hide SteerChannel.Valid;
      hide RunLife.IsRunning;
      ghost var next := Step(life, RunLife.Steer(session, text));
      StepKeeps(life, RunLife.Steer(session, text));
      SteerShape(life, session, text);
      ghost var i := There(session);
      ghost var waiting := |steering[session].pending|;
      q := steering[session].Queue(text);
      AnsweredIs(q, Strip(text), waiting);
      hide Answered;
      PutBack(jobs, life.runs, i, next.runs);
      TablesStay(running, steering, spawned, jobs, life, next);
      life := next;
    }

    /** Drop what is queued on the session's channel, if it has one. */
    method AbandonSteers(session: string) returns (n: nat)
      requires Valid()
      modifies Channels(jobs), this`life
      ensures Valid() && jobs == old(jobs)
      ensures life == AbandonNotes(old(life), session)
      ensures n == if session in old(life).steering then |old(life).runs[old(life).steering[session]].pending| else 0
      ensures running == old(running) && steering == old(steering) && spawned == old(spawned)
      ensures session in steering ==> steering[session].pending == []
    {
      hide Inv;
      hide AbandonNotes;
      hide JobsAre;
      hide TablesAre;
      AbandonKeeps(life, session);
      AbandonShape(life, session);
      if session !in steering {
        NotThere(session);
        return 0;
      }
      ghost var i := There(session);
      ghost var next := AbandonNotes(life, session);
      n := steering[session].Abandon();
      PutBack(jobs, life.runs, i, next.runs);
      TablesStay(running, steering, spawned, jobs, life, next);
      life := next;
    }

    /** Cancel the run registered for the session, dropping first what was queued on its channel. */
    method Stop(session: string) returns (stopped: bool)
      requires Valid()
      modifies Channels(jobs), jobs, this`life
      ensures Valid() && jobs == old(jobs)
      ensures life == Step(old(life), RunLife.Stop(session)) && Step(old(life), Interrupt(session)) == life
      ensures stopped <==> RunLife.IsRunning(old(life), session)
      ensures running == old(running) && steering == old(steering) && spawned == old(spawned)
      ensures stopped ==> session in running && running[session].status == Cancelled
      ensures stopped && session in steering ==> steering[session].pending == []
      ensures !stopped ==> life == old(life)
    {
      hide Inv;
      hide AbandonNotes;
      hide JobsAre;
      hide TablesAre;
      hide RunLife.IsRunning;
      hide Step;
      StopShape(life, session);
      stopped := IsRunning(session);
      if !stopped {
        return;
      }
      var _ := AbandonSteers(session);
      CancelRegistered(session);
    }

    method CancelRegistered(session: string)
      requires Valid() && session in life.running
      requires life.running[session] < |life.runs| && Inv(Cancel(life, life.running[session]))
      modifies jobs, this`life
      ensures Valid() && jobs == old(jobs) && life == Cancel(old(life), old(life).running[session])
      ensures session in running && running[session].status == Cancelled
    {
      hide Inv;
      hide TablesAre;
      hide SteerChannel.Valid;
      ghost var i := life.running[session];
      ghost var next := Cancel(life, i);
      Registered(session);
      running[session].status := Cancelled;
      PutBack(jobs, life.runs, i, next.runs);
      TablesStay(running, steering, spawned, jobs, life, next);
      life := next;
    }

    /** A tool result of this run picks up what is queued on its channel. */
    method ToolResult(ghost i: nat, job: Job, result: string, sentinel: string) returns (text: string, landed: Option<Landed>)
      requires Valid() && i < |jobs| && jobs[i] == job && job.status == Working
      requires Token(sentinel) && (job.channel != null ==> sentinel != job.channel.nonce)
      modifies job.channel, this`life
      ensures Valid() && jobs == old(jobs)
      ensures life == Step(old(life), RunLife.ToolResult(i))
      ensures old(life).runs[i].pending == [] ==> text == result && landed == None
      ensures old(life).runs[i].pending != [] ==>
        && landed == Some(Landed(Join(old(life).runs[i].pending, "\n"), |old(life).runs[i].pending|))
        && text == WithBlock(result, Block(sentinel, Join(old(life).runs[i].pending, "\n")))
      ensures job.channel != null ==> job.channel.pending == []
    {
      hide Inv;
      hide TablesAre;
      hide Token;
      hide Step;
      hide SteerChannel.Valid;
      Aside(i);
      StepKeeps(life, RunLife.ToolResult(i));
      LandShape(life, i);
      ghost var next := Step(life, RunLife.ToolResult(i));
      text, landed := result, None;
      if job.channel != null {
        text, landed := job.channel.Attach(result, sentinel);
      }
      PutBack(jobs, life.runs, i, next.runs);
      TablesStay(running, steering, spawned, jobs, life, next);
      life := next;
    }

    /** A run makes its channel and enters both tables at once. */
    method Register(session: string, steerable: bool, nonce: string) returns (job: Job)
      requires Valid() && Token(nonce)
      modifies this
      ensures Valid() && fresh(job) && jobs == old(jobs) + [job]
      ensures job.channel != null ==> fresh(job.channel) && job.channel.nonce == nonce
      ensures life == Step(old(life), Start(session, steerable))
      ensures spawned == old(spawned) && steeringOn == old(steeringOn)
      ensures job.session == session && job.status == Working
      ensures job.channel != null <==> steerable && !("__routine__:" <= session)
      ensures job.channel != null ==> job.channel.pending == []
      ensures running == old(running)[session := job]
      ensures steering == if job.channel != null then old(steering)[session := job.channel] else old(steering)
    {
      hide Inv;
      hide Token;
      hide Step;
      hide TablesAre;
      hide SteerChannel.Valid;
      ghost var next := Step(life, Start(session, steerable));
      StepKeeps(life, Start(session, steerable));
      StartShape(life, session, steerable);
      var channel: SteerChannel? := null;
      if steerable && !(ROUTINE <= session) {
        channel := new SteerChannel(nonce);
      }
      job := new Job(session, channel);
      JobsGrow(jobs, life.runs, job, next.runs);
      TablesGrow(running, steering, spawned, jobs, life, job, next);
      running := running[session := job];
      if channel != null {
        steering := steering[session := channel];
      }
      jobs := jobs + [job];
      life := next;
    }

    /** The run is over, however it ended: it leaves the tables, and what never landed goes out late. */
    method Unwind(ghost i: nat, job: Job)
      requires Valid() && i < |jobs| && jobs[i] == job && job.status != Ended
      modifies this, job, job.channel
      ensures Valid() && jobs == old(jobs)
      ensures life == Step(old(life), Finish(i))
      ensures job.status == Ended
      ensures running == old(running) - {job.session}
      ensures steering == if job.channel != null then old(steering) - {job.session} else old(steering)
      ensures job.channel != null ==> job.channel.pending == []
      ensures spawned == old(spawned) + if job.channel == null || old(job.channel.pending) == [] then []
                                        else [Spawned(job.session, Join(old(job.channel.pending), "\n"), null, false)]
    {
      hide Inv;
      hide Step;
      hide TablesAre;
      hide Join;
      hide SteerChannel.Valid;
      Aside(i);
      StepKeeps(life, Finish(i));
      FinishShape(life, i);
      ghost var next := Step(life, Finish(i));
      TablesShrink(running, steering, spawned, jobs, life, i, next);
      running := running - {job.session};
      if job.channel != null {
        steering := steering - {job.session};
        var left := job.channel.Drain();
        if left != [] {
          DeliverLate(job.session, left);
        }
      }
      job.status := Ended;
      PutBack(jobs, life.runs, i, next.runs);
      life := next;
      assert JobsAre(jobs, life.runs);
      assert spawned == old(spawned) + if life.tasks == old(life).tasks then []
                                       else [Spawned(job.session, life.tasks[|old(life).tasks|].text, null, false)];
    }

    /** Notes that missed their run become one new task, waiting for nothing. */
    method DeliverLate(session: string, texts: seq<string>)
      modifies this`spawned
      ensures spawned == old(spawned) + if Join(Filled(texts), "\n") == "" then []
                                        else [Spawned(session, Join(Filled(texts), "\n"), null, false)]
    {
      var joined := Join(Filled(texts), "\n");
      if joined == "" {
        return;
      }
      spawned := spawned + [Spawned(session, joined, null, false)];
    }

    /** Run a text as a task of its own, after the run in flight if there is one. */
    method QueueTask(session: string, text: string) returns (afterCurrent: bool)
      requires Valid()
      modifies this`spawned, this`life
      ensures Valid() && (afterCurrent ==> session in running && running[session].status != Ended)
      ensures life == Step(old(life), RunLife.QueueTask(session, text))
      ensures afterCurrent <==> RunLife.IsRunning(old(life), session)
      ensures running == old(running) && steering == old(steering)
      ensures spawned == old(spawned) + [Spawned(session, text, if afterCurrent then running[session] else null, false)]
    {
      hide Inv;
      hide Step;
      hide TablesAre;
      StepKeeps(life, RunLife.QueueTask(session, text));
      QueueShape(life, session, text);
      afterCurrent := IsRunning(session);
      if afterCurrent { RunningIs(running, steering, spawned, jobs, life, session); }
      var prior: Job? := if afterCurrent then running[session] else null;
      TablesQueue(running, steering, spawned, jobs, life, Spawned(session, text, prior, false),
                  Step(life, RunLife.QueueTask(session, text)));
      spawned := spawned + [Spawned(session, text, prior, false)];
      life := Step(life, RunLife.QueueTask(session, text));
    }

    /** A spawned task whose prior run is over becomes a run. */
    method RunAfter(k: nat, steerable: bool, nonce: string) returns (job: Job)
      requires Valid() && Token(nonce)
      requires k < |spawned| && !spawned[k].started && (spawned[k].prior != null ==> spawned[k].prior.status == Ended)
      modifies this
      ensures Valid() && fresh(job) && jobs == old(jobs) + [job]
      ensures life == Step(old(life), Launch(k, steerable)) && |life.runs| == |old(life).runs| + 1
      ensures spawned == old(spawned)[k := old(spawned)[k].(started := true)] && running == old(running)[old(spawned)[k].session := job]
    {
      hide Inv;
      Mark(k, steerable);
      spawned := spawned[k := spawned[k].(started := true)];
      life := Started(life, k);
      job := Register(spawned[k].session, steerable, nonce);
    }

    lemma Registered(session: string)
      requires Valid() && session in life.running
      ensures var i := life.running[session];
              && |jobs| == |life.runs| && session in running && i < |jobs| && running[session] == jobs[i]
              && OthersAre(jobs, life.runs, i) && JobIs(jobs[i], life.runs[i])
              && jobs[i] !in OtherJobs(jobs, i)
    {
      hide Inv;
      hide JobIs;
      SetAside(jobs, life.runs, life.running[session]);
    }

    lemma Aside(i: nat)
      requires Valid() && i < |jobs|
      ensures |jobs| == |life.runs| && OthersAre(jobs, life.runs, i) && JobIs(jobs[i], life.runs[i])
      ensures jobs[i] !in OtherJobs(jobs, i) && (jobs[i].channel != null ==> jobs[i].channel !in OtherChannels(jobs, i))
    {
      hide Inv;
      SetAside(jobs, life.runs, i);
    }

    lemma Mark(k: nat, steerable: bool)
      requires Valid() && k < |spawned| && k < |life.tasks|
      requires !spawned[k].started && (spawned[k].prior != null ==> spawned[k].prior.status == Ended)
      ensures Inv(Started(life, k))
      ensures TablesAre(running, steering, spawned[k := spawned[k].(started := true)], jobs, Started(life, k))
      ensures Step(life, Launch(k, steerable)) == Step(Started(life, k), Start(spawned[k].session, steerable))
      ensures spawned[k].session == life.tasks[k].session
    {
      hide SteerChannel.Valid;
      hide NotesOk;
      assert TaskIs(spawned[k], life.tasks[k], jobs);
      StartedKeeps(life, k);
    }

    lemma Known(session: string)
      requires TablesAre(running, steering, spawned, jobs, life) && session in steering
      ensures steering[session] in Channels(jobs)
      ensures session in life.steering && life.steering[session] < |life.runs|
    {}

    lemma NotThere(session: string)
      requires TablesAre(running, steering, spawned, jobs, life) && session !in steering
      ensures session !in life.steering
    {}

    /** The channel a session is registered under, in the state machine's terms. */
    lemma There(session: string) returns (i: nat)
      requires Valid() && session in steering
      ensures session in life.steering && i == life.steering[session] && i < |jobs| && i < |life.runs|
      ensures jobs[i].channel == steering[session] && JobIs(jobs[i], life.runs[i])
      ensures OthersAre(jobs, life.runs, i) && steering[session] !in OtherChannels(jobs, i)
      ensures steering[session] in Channels(jobs)
    {
      hide Inv;
      i := life.steering[session];
      SetAside(jobs, life.runs, i);
    }
  }

  lemma {:induction false} AllFilled(texts: seq<string>)
    requires forall k :: 0 <= k < |texts| ==> texts[k] != ""
    ensures Filled(texts) == texts && (texts != [] ==> Join(texts, "\n") != "")
  {
    if texts != [] { AllFilled(texts[1..]); }
  }

  lemma TablesShrink(running: map<string, Job>, steering: map<string, SteerChannel>, spawned: seq<Spawned>,
                     jobs: seq<Job>, l: Life, i: nat, l': Life)
    requires TablesAre(running, steering, spawned, jobs, l) && i < |jobs|
    requires |l'.runs| == |l.runs|
    requires l'.running == l.running - {jobs[i].session}
    requires l'.steering == if jobs[i].channel != null then l.steering - {jobs[i].session} else l.steering
    requires l'.tasks == l.tasks || exists text, late :: l'.tasks == l.tasks + [Task(jobs[i].session, text, None, late, false)]
    ensures TablesAre(running - {jobs[i].session},
                      if jobs[i].channel != null then steering - {jobs[i].session} else steering,
                      spawned + if l'.tasks == l.tasks then []
                                else [Spawned(jobs[i].session, l'.tasks[|l.tasks|].text, null, false)],
                      jobs, l')
  {}

  lemma FinishShape(l: Life, r: nat)
    requires Inv(l) && r < |l.runs| && l.runs[r].status != Ended
    ensures var next, run := Step(l, Finish(r)), l.runs[r];
            && next == l.(runs := next.runs, ledger := next.ledger, running := next.running, steering := next.steering,
                          tasks := next.tasks)
            && next.runs == l.runs[r := run.(pending := [], status := Ended)]
            && next.running == l.running - {run.session}
            && next.steering == (if run.channel then l.steering - {run.session} else l.steering)
            && next.tasks == if run.pending == [] then l.tasks
                             else l.tasks + [Task(run.session, Join(Filled(run.pending), "\n"), None, Some(r), false)]
    ensures l.runs[r].pending != [] ==> Join(Filled(l.runs[r].pending), "\n") != ""
    ensures !l.runs[r].channel ==> l.runs[r].pending == []
    ensures Filled(l.runs[r].pending) == l.runs[r].pending
  {
    hide Join;
    hide Texts;
    assert RunOk(l.runs[r], r, l.ledger);
    forall k | 0 <= k < |l.runs[r].pending| ensures l.runs[r].pending[k] != "" {
      PendingText(l.ledger, r, Waiting, k);
    }
    AllFilled(l.runs[r].pending);
  }

  lemma {:induction false} PendingText(ledger: seq<Entry>, r: nat, fate: Fate, k: nat)
    requires k < |Texts(ledger, r, fate)|
    ensures exists e :: 0 <= e < |ledger| && ledger[e].text == Texts(ledger, r, fate)[k]
    decreases |ledger|
  {
    var n := |ledger| - 1;
    if k < |Texts(ledger[..n], r, fate)| {
      PendingText(ledger[..n], r, fate, k);
      var e :| 0 <= e < n && ledger[..n][e].text == Texts(ledger[..n], r, fate)[k];
      assert ledger[e].text == Texts(ledger, r, fate)[k];
    } else {
      assert ledger[n].text == Texts(ledger, r, fate)[k];
    }
  }

  lemma StartShape(l: Life, session: string, steerable: bool)
    ensures var next := Step(l, Start(session, steerable));
            var channel := steerable && !(ROUTINE <= session);
            && next == l.(runs := l.runs + [Run(session, channel, [], [], Working)], running := next.running,
                          steering := next.steering)
            && next.running == l.running[session := |l.runs|]
            && next.steering == if channel then l.steering[session := |l.runs|] else l.steering
  {}

  lemma QueueShape(l: Life, session: string, text: string)
    ensures var next := Step(l, QueueTask(session, text));
            var prior := if RunLife.IsRunning(l, session) then Some(l.running[session]) else None;
            next == l.(tasks := l.tasks + [Task(session, text, prior, None, false)])
  {}

  /** The run in flight for a session, in both tables. */
  lemma RunningIs(running: map<string, Job>, steering: map<string, SteerChannel>, spawned: seq<Spawned>,
                  jobs: seq<Job>, l: Life, session: string)
    requires TablesAre(running, steering, spawned, jobs, l) && RunLife.IsRunning(l, session)
    ensures session in running && l.running[session] < |jobs| && running[session] == jobs[l.running[session]]
  {}

  lemma TablesQueue(running: map<string, Job>, steering: map<string, SteerChannel>, spawned: seq<Spawned>,
                    jobs: seq<Job>, l: Life, t: Spawned, l': Life)
    requires TablesAre(running, steering, spawned, jobs, l)
    requires |l'.tasks| == |l.tasks| + 1 && l' == l.(tasks := l.tasks + [l'.tasks[|l.tasks|]])
    requires TaskIs(t, l'.tasks[|l.tasks|], jobs)
    ensures TablesAre(running, steering, spawned + [t], jobs, l')
  {
    hide TaskIs;
  }

  lemma LandShape(l: Life, r: nat)
    requires Inv(l) && r < |l.runs|
    ensures var next := Step(l, ToolResult(r));
            if l.runs[r].status != Working || !l.runs[r].channel then next == l
            else
              && next == l.(runs := next.runs, ledger := next.ledger)
              && next.runs == l.runs[r := l.runs[r].(pending := [], landed := l.runs[r].landed + l.runs[r].pending)]
    ensures !l.runs[r].channel ==> l.runs[r].pending == []
  {
    assert RunOk(l.runs[r], r, l.ledger);
  }

  lemma StopShape(l: Life, session: string)
    requires Inv(l)
    ensures var next := Step(l, Stop(session));
            && Inv(next) && next == Step(l, Interrupt(session))
            && (if !RunLife.IsRunning(l, session) then next == l
                else
                  && session in l.running && l.running[session] < |l.runs| == |AbandonNotes(l, session).runs|
                  && AbandonNotes(l, session).running == l.running
                  && next == Cancel(AbandonNotes(l, session), l.running[session]))
  {
    StopKeeps(l, session);
    AbandonShape(l, session);
  }

  lemma AbandonShape(l: Life, session: string)
    requires Inv(l)
    ensures var next := AbandonNotes(l, session);
            if session !in l.steering then next == l
            else
              var r := l.steering[session];
              && r < |l.runs|
              && next == l.(runs := next.runs, ledger := next.ledger)
              && next.runs == l.runs[r := l.runs[r].(pending := [])]
  {}

  lemma SteerShape(l: Life, session: string, text: string)
    ensures var next := Step(l, RunLife.Steer(session, text));
            if !Accepts(l, session, text) then next == l
            else
              var r := l.steering[session];
              && next == l.(runs := next.runs, ledger := next.ledger)
              && next.runs == l.runs[r := l.runs[r].(pending := l.runs[r].pending + [Strip(text)])]
  {
    hide Strip;
  }
}
