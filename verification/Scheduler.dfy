/** The scheduler's job table, and its reconciliation with the routine store. */
module Scheduler {
  import opened Text
  import opened Schedule

  datatype Kind = PromptKind | RoutineKind

  class Job {
    const id: string
    const session: string
    const kind: Kind
    var instruction: string
    var schedule: Spec
    var nextRun: int
    var active: bool
    var lastRun: Option<int>
    var runs: nat

    constructor (id: string, instruction: string, schedule: Spec, session: string, nextRun: int, kind: Kind)
      ensures this.id == id && this.session == session && this.kind == kind
      ensures State() == JobState(session, kind, instruction, schedule, nextRun, true, None, 0)
    {
      this.id, this.session, this.kind := id, session, kind;
      this.instruction, this.schedule, this.nextRun := instruction, schedule, nextRun;
      active, lastRun, runs := true, None, 0;
    }

    method Revise(instruction: Option<string>, spec: Option<Spec>, now: int)
      modifies this
      ensures State() == Updated(old(State()), instruction, spec, now)
    {
      if instruction.Some? {
        this.instruction := instruction.value;
      }
      if spec.Some? {
        schedule := spec.value;
        nextRun := NextRun(spec.value, now);
      }
      active := true;
    }

    function State(): JobState
      reads this
    {
      JobState(session, kind, instruction, schedule, nextRun, active, lastRun, runs)
    }
  }

  /** A job as a value. */
  datatype JobState = JobState(session: string, kind: Kind, instruction: string, schedule: Spec, nextRun: int,
                               active: bool, lastRun: Option<int>, runs: nat)

  predicate Due(j: JobState, now: int) {
    j.active && j.nextRun <= now
  }

  function NewJob(instruction: string, spec: Spec, session: string, kind: Kind, t: int): JobState {
    JobState(session, kind, instruction, spec, NextRun(spec, t), true, None, 0)
  }

  function Updated(j: JobState, instruction: Option<string>, spec: Option<Spec>, t: int): JobState {
    var j1 := if instruction.Some? then j.(instruction := instruction.value) else j;
    var j2 := if spec.Some? then j1.(schedule := spec.value, nextRun := NextRun(spec.value, t)) else j1;
    j2.(active := true)
  }

  /** What is given is changed, what is not stays, a new schedule has its next run as of t, and the job is
      active. */
  ghost predicate Revised(j: JobState, j': JobState, instruction: Option<string>, spec: Option<Spec>, t: int) {
    && j'.session == j.session && j'.kind == j.kind && j'.lastRun == j.lastRun && j'.runs == j.runs && j'.active
    && (instruction.Some? ==> j'.instruction == instruction.value) && (instruction.None? ==> j'.instruction == j.instruction)
    && (spec.Some? ==> j'.schedule == spec.value && (Sound(spec.value) ==> IsNext(spec.value, t, j'.nextRun)))
    && (spec.None? ==> j'.schedule == j.schedule && j'.nextRun == j.nextRun)
  }

  lemma UpdatedIsRevised(j: JobState, instruction: Option<string>, spec: Option<Spec>, t: int)
    ensures Revised(j, Updated(j, instruction, spec, t), instruction, spec, t)
  {
    hide IsNext;
    hide NextRun;
    if spec.Some? && Sound(spec.value) { NextIsNext(spec.value, t); }
  }

  /** Its schedule repeats forwards: a new run is later than any moment it is worked out at. */
  predicate Forward(s: Spec) {
    Sound(s) && (s.Interval? ==> s.seconds > 0)
  }

  ghost predicate Monotone(clock: nat -> int) {
    forall i: nat, j: nat {:trigger clock(i), clock(j)} :: i <= j ==> clock(i) <= clock(j)
  }

  /** The run a schedule asks for after moment t: the first instant that shows its clock time on its weekday,
      or the interval in seconds. */
  ghost predicate IsNext(s: Spec, t: int, next: int) {
    match s
    case Daily(_, _) => t < next && Occurs(s, next) && forall u :: t < u < next ==> !Occurs(s, u)
    case Weekly(_, _, _) => t < next && Occurs(s, next) && forall u :: t < u < next ==> !Occurs(s, u)
    case Interval(seconds) => next == t + seconds * 1_000_000
    case Unknown => next == t + 3650 * 86_400_000_000
    case Once(at) => next == at
  }

  lemma NextIsNext(s: Spec, t: int)
    requires Sound(s)
    ensures IsNext(s, t, NextRun(s, t))
  {
    hide Occurs;
    if s.Daily? || s.Weekly? {
      NextIsFirst(s, t, t);
      forall u | t < u < NextRun(s, t) ensures !Occurs(s, u) { NextIsFirst(s, t, u); }
    }
  }

  /** What firing does to a job, with the clock read from reading `from` on and before reading `to`: the
      end of the run is noted; a one-off is done, anything else waits for the run worked out after that. */
  ghost predicate Fired(j: JobState, j': JobState, clock: nat -> int, from: nat, to: nat) {
    exists n: nat, m: nat ::
      && from <= n <= m < to
      && j'.runs == j.runs + 1 && j'.lastRun == Some(clock(n))
      && j' == j.(runs := j'.runs, lastRun := j'.lastRun, active := j'.active, nextRun := j'.nextRun)
      && if j.schedule.Once? then !j'.active && j'.nextRun == j.nextRun
         else j'.active == j.active && n < m && j'.nextRun == NextRun(j.schedule, clock(m))
  }

  ghost predicate Handled(j: JobState, j': JobState, now: int, clock: nat -> int, from: nat, to: nat) {
    if Due(j, now) then Fired(j, j', clock, from, to) else j' == j
  }

  lemma HandledLater(j: JobState, j': JobState, now: int, clock: nat -> int, from: nat, to: nat, from': nat, to': nat)
    requires Handled(j, j', now, clock, from, to) && from' <= from && to <= to'
    ensures Handled(j, j', now, clock, from', to')
  {
    if Due(j, now) {
      var n: nat, m: nat :|
        && from <= n <= m < to
        && j'.runs == j.runs + 1 && j'.lastRun == Some(clock(n))
        && j' == j.(runs := j'.runs, lastRun := j'.lastRun, active := j'.active, nextRun := j'.nextRun)
        && if j.schedule.Once? then !j'.active && j'.nextRun == j.nextRun
           else j'.active == j.active && n < m && j'.nextRun == NextRun(j.schedule, clock(m));
      assert from' <= n <= m < to';
    }
  }

  /** A job that fired is not due again at the same moment, and its schedule is what it was. */
  lemma HandledNotDue(j: JobState, j': JobState, now: int, clock: nat -> int, from: nat, to: nat)
    requires Handled(j, j', now, clock, from, to) && (j.schedule.Once? || Forward(j.schedule))
    requires Monotone(clock) && now <= clock(from)
    ensures !Due(j', now) && j'.schedule == j.schedule
  {
    NextIsLater(j.schedule);
  }

  /** A job that fired waits for the very next run its schedule asks for, as of a moment during the call. */
  lemma FiredIsNext(j: JobState, j': JobState, clock: nat -> int, from: nat, to: nat) returns (n: nat, m: nat)
    requires Fired(j, j', clock, from, to) && Sound(j.schedule)
    ensures from <= n <= m < to && j'.lastRun == Some(clock(n)) && j'.runs == j.runs + 1
    ensures j'.schedule == j.schedule && j'.session == j.session && j'.kind == j.kind && j'.instruction == j.instruction
    ensures if j.schedule.Once? then !j'.active
            else n < m && j'.active == j.active && IsNext(j.schedule, clock(m), j'.nextRun)
  {
    hide IsNext;
    hide NextRun;
    n, m :|
      && from <= n <= m < to
      && j'.runs == j.runs + 1 && j'.lastRun == Some(clock(n))
      && j' == j.(runs := j'.runs, lastRun := j'.lastRun, active := j'.active, nextRun := j'.nextRun)
      && if j.schedule.Once? then !j'.active && j'.nextRun == j.nextRun
         else j'.active == j.active && n < m && j'.nextRun == NextRun(j.schedule, clock(m));
    NextIsNext(j.schedule, clock(m));
  }

  ghost predicate NoDuplicates(ids: seq<string>) {
    forall i, j :: 0 <= i < j < |ids| ==> ids[i] != ids[j]
  }

  /** Every job outside `left` has been handled, with the clock read from `from` up to `to`, and no other
      touched. */
  ghost predicate Swept(was: map<string, JobState>, table: map<string, JobState>, left: set<string>, now: int,
                        clock: nat -> int, from: nat, to: nat) {
    && table.Keys == was.Keys
    && (forall id :: id in was && id in left ==> table[id] == was[id])
    && (forall id :: id in was && id !in left ==> Handled(was[id], table[id], now, clock, from, to))
  }

  lemma SweptStep(was: map<string, JobState>, table: map<string, JobState>, left: set<string>, id: string, j: JobState,
                  now: int, clock: nat -> int, from: nat, mid: nat, to: nat)
    requires Swept(was, table, left, now, clock, from, mid) && id in left && id in was && from <= mid <= to
    requires Handled(table[id], j, now, clock, mid, to)
    ensures Swept(was, table[id := j], left - {id}, now, clock, from, to) && table[id] == was[id]
  {
    hide Handled;
    HandledLater(table[id], j, now, clock, mid, to, from, to);
    forall other | other in was && other !in left ensures Handled(was[other], table[other], now, clock, from, to) {
      HandledLater(was[other], table[other], now, clock, from, mid, from, to);
    }
  }

  /** The jobs outside `left` that were due, each once. */
  ghost predicate Batch(batch: seq<string>, was: map<string, JobState>, left: set<string>, now: int) {
    NoDuplicates(batch) && forall id :: id in batch <==> id in was && id !in left && Due(was[id], now)
  }

  lemma BatchStep(batch: seq<string>, was: map<string, JobState>, left: set<string>, id: string, now: int)
    requires Batch(batch, was, left, now) && id in left && id in was
    ensures Batch(batch + if Due(was[id], now) then [id] else [], was, left - {id}, now)
  {
    hide Due;
  }

  lemma SweepStarts(was: map<string, JobState>, now: int, clock: nat -> int, from: nat)
    ensures Swept(was, was, was.Keys, now, clock, from, from) && Batch([], was, was.Keys, now)
  {}

  lemma SweepEnds(was: map<string, JobState>, table: map<string, JobState>, batch: seq<string>, now: int,
                  clock: nat -> int, from: nat, to: nat)
    requires Swept(was, table, {}, now, clock, from, to) && Batch(batch, was, {}, now)
    ensures table.Keys == was.Keys && forall id :: id in was ==> Handled(was[id], table[id], now, clock, from, to)
    ensures NoDuplicates(batch) && forall id :: id in batch <==> id in was && Due(was[id], now)
  {
    hide Handled;
    hide Due;
  }

  lemma Assoc(a: seq<string>, b: seq<string>, c: seq<string>)
    ensures (a + b) + c == a + (b + c)
  {}

  lemma SomebodyIn(ids: seq<string>)
    ensures ids == [] || exists id :: id in ids
  {
    if ids != [] { assert ids[0] in ids; }
  }

  class Scheduler {
    /** the n-th reading of the clock */
    const clock: nat -> int
    var readings: nat
    var jobs: map<string, Job>
    /** the ids of the jobs fired, in order */
    ghost var fired: seq<string>

    ghost predicate Valid()
      reads this, jobs.Values
    {
      && Monotone(clock)
      && (forall id :: id in jobs ==> jobs[id].id == id)
    }

    ghost function Table(): map<string, JobState>
      reads this`jobs, jobs.Values
    {
      map id | id in jobs :: jobs[id].State()
    }

    constructor (clock: nat -> int)
      requires Monotone(clock)
      ensures Valid() && Table() == map[] && fired == [] && this.clock == clock && readings == 0
    {
      this.clock, readings, jobs, fired := clock, 0, map[], [];
    }

    method Now() returns (t: int)
      modifies this`readings
      ensures t == clock(old(readings)) && readings == old(readings) + 1
    {
      t := clock(readings);
      readings := readings + 1;
    }

    method Add(id: string, instruction: string, spec: Spec, session: string, kind: Kind) returns (job: Job)
      requires Valid() && id !in jobs
      modifies this`jobs, this`readings
      ensures Valid() && fresh(job) && jobs == old(jobs)[id := job] && readings > old(readings)
      ensures Table() == old(Table())[id := NewJob(instruction, spec, session, kind, clock(old(readings)))]
      ensures Table()[id] == JobState(session, kind, instruction, spec, NextRun(spec, clock(old(readings))), true, None, 0)
      ensures Sound(spec) ==> IsNext(spec, clock(old(readings)), Table()[id].nextRun)
    {
      var t := Now();
      job := new Job(id, instruction, spec, session, NextRun(spec, t), kind);
      jobs := jobs[id := job];
      assert Table() == old(Table())[id := NewJob(instruction, spec, session, kind, t)];
      if Sound(spec) { NextIsNext(spec, t); }
    }

    /** Cancel a job; a caller who names a session only reaches that session's jobs. */
    method Cancel(id: string, session: Option<string>) returns (ok: bool)
      requires Valid()
      modifies jobs.Values
      ensures Valid()
      ensures ok <==> id in jobs && (session.None? || session.value == jobs[id].session)
      ensures Table() == if ok then old(Table())[id := old(Table())[id].(active := false)] else old(Table())
    {
      if id !in jobs || (session.Some? && jobs[id].session != session.value) {
        return false;
      }
      jobs[id].active := false;
      assert Table() == old(Table())[id := old(Table())[id].(active := false)];
      return true;
    }

    /** Change a job and make it active again. */
    method Update(id: string, session: Option<string>, instruction: Option<string>, spec: Option<Spec>) returns (ok: bool)
      requires Valid()
      modifies jobs.Values, this`readings
      ensures Valid() && readings >= old(readings) && (ok && spec.Some? ==> readings > old(readings))
      ensures ok <==> id in jobs && (session.None? || session.value == jobs[id].session)
      ensures !ok ==> Table() == old(Table())
      ensures ok ==> Table() == old(Table())[id := Updated(old(Table())[id], instruction, spec, clock(old(readings)))]
      ensures ok ==> Revised(old(Table())[id], Table()[id], instruction, spec, clock(old(readings)))
    {
      hide NextRun;
      hide Updated;
      hide Revised;
      if id !in jobs || (session.Some? && jobs[id].session != session.value) {
        return false;
      }
      var now := clock(readings);
      if spec.Some? {
        now := Now();
      }
      jobs[id].Revise(instruction, spec, now);
      assert Table() == old(Table())[id := Updated(old(Table())[id], instruction, spec, now)];
      UpdatedIsRevised(old(Table())[id], instruction, spec, now);
      return true;
    }

    /** Run one job: its outcome, good or bad, is not part of the table. */
    method RunJob(id: string)
      requires Valid() && id in jobs
      modifies jobs[id], this`readings, this`fired
      ensures Valid() && fired == old(fired) + [id] && readings > old(readings)
      ensures Fired(old(jobs[id].State()), jobs[id].State(), clock, old(readings), readings)
    {
      var job := jobs[id];
      var last := Now();
      job.lastRun := Some(last);
      job.runs := job.runs + 1;
      if job.schedule.Once? {
        job.active := false;
      } else {
        var t := Now();
        job.nextRun := NextRun(job.schedule, t);
      }
      fired := fired + [id];
      assert job.lastRun == Some(clock(old(readings))) && readings - 1 >= old(readings);
    }

    method RunIfDue(id: string, now: int)
      requires Valid() && id in jobs
      modifies jobs[id], this`readings, this`fired
      ensures Valid() && readings >= old(readings)
      ensures Table() == old(Table())[id := Table()[id]]
      ensures Handled(old(Table())[id], Table()[id], now, clock, old(readings), readings)
      ensures fired == old(fired) + if Due(old(Table())[id], now) then [id] else []
    {
      hide Fired;
      hide NextRun;
      var job := jobs[id];
      if job.active && job.nextRun <= now {
        RunJob(id);
      }
      assert Table() == old(Table())[id := Table()[id]];
    }

    /** Run every job that is due, in whatever order the table has. */
    method FireDue(now: int)
      requires Valid()
      modifies jobs.Values, this`readings, this`fired
      ensures Valid() && readings >= old(readings) && Table().Keys == old(Table()).Keys
      ensures forall id :: id in jobs ==>
        Handled(old(Table())[id], Table()[id], now, clock, old(readings), readings)
      ensures old(fired) <= fired && NoDuplicates(fired[|old(fired)|..])
      ensures forall id :: id in fired[|old(fired)|..] <==> id in jobs && Due(old(Table())[id], now)
    {
      hide Handled;
      hide Due;
      hide Swept;
      hide Batch;
      hide NoDuplicates;
      ghost var batch: seq<string>, was, table := [], Table(), Table();
      var left := jobs.Keys;
      assert left == was.Keys;
      SweepStarts(was, now, clock, readings);
      while left != {}
        invariant Valid() && jobs == old(jobs) && readings >= old(readings)
        invariant Table() == table && table.Keys == was.Keys && left <= was.Keys
        invariant Swept(was, table, left, now, clock, old(readings), readings)
        invariant fired == old(fired) + batch && Batch(batch, was, left, now)
        decreases left
      {
        var id :| id in left;
        ghost var mid := readings;
        RunIfDue(id, now);
        SweptStep(was, table, left, id, Table()[id], now, clock, old(readings), mid, readings);
        BatchStep(batch, was, left, id, now);
        left := left - {id};
        table := Table();
        Assoc(old(fired), batch, if Due(was[id], now) then [id] else []);
        batch := batch + if Due(was[id], now) then [id] else [];
      }
      assert left == {};
      SweepEnds(was, table, batch, now, clock, old(readings), readings);
      assert fired[|old(fired)|..] == batch;
    }

    /** Asked again about the same moment, nothing fires. */
    method FireDueTwice(now: int) returns (ghost once: seq<string>)
      requires Valid() && now <= clock(readings)
      requires forall id :: id in jobs ==> jobs[id].schedule.Once? || Forward(jobs[id].schedule)
      modifies jobs.Values, this`readings, this`fired
      ensures Valid() && fired == once && old(fired) <= once
      ensures forall id :: id in jobs ==> !Due(Table()[id], now)
    {
      hide Handled;
      hide Due;
      hide Forward;
      ghost var was, r0 := Table(), readings;
      FireDue(now);
      ghost var r1 := readings;
      once := fired;
      ghost var table := Table();
      forall id | id in jobs ensures !Due(table[id], now) && table[id].schedule == was[id].schedule {
        HandledNotDue(was[id], table[id], now, clock, r0, r1);
      }
      FireDue(now);
      SomebodyIn(fired[|once|..]);
      forall id | id in jobs ensures !Due(Table()[id], now) {
        HandledNotDue(table[id], Table()[id], now, clock, r1, readings);
      }
    }
  }
}
