/** Bringing the scheduler's routine jobs in line with the routine store. */
module Reconciler {
  import opened Text
  import opened Schedule
  import opened Scheduler

  /** `schedule` is the trigger's, if there is one. */
  datatype Routine = Routine(name: string, enabled: bool, schedule: Option<string>)

  type Table = map<string, JobState>

  /** The schedule a routine asks for: none if it is disabled, unscheduled, or its text cannot be
      parsed. */
  function Asked(r: Routine, parse: string -> Option<Spec>): Option<Spec> {
    if !r.enabled || r.schedule.None? || r.schedule.value == "" then None else parse(r.schedule.value)
  }

  ghost predicate Wanted(routines: seq<Routine>, parse: string -> Option<Spec>, name: string) {
    exists k :: 0 <= k < |routines| && routines[k].name == name && Asked(routines[k], parse).Some?
  }

  predicate RoutineJob(j: JobState) {
    j.kind == RoutineKind && j.active
  }

  predicate Serves(t: Table, id: string, name: string) {
    id in t && RoutineJob(t[id]) && t[id].instruction == name
  }

  /** No routine has two active jobs. */
  ghost predicate OneEach(t: Table) {
    forall i, j :: i in t && j in t && RoutineJob(t[i]) && RoutineJob(t[j]) && t[i].instruction == t[j].instruction ==> i == j
  }

  /** The routine store's keys are its names. */
  predicate Named(routines: seq<Routine>) {
    forall i, j :: 0 <= i < j < |routines| ==> routines[i].name != routines[j].name
  }

  /** What reconciling promises: one active job for every wanted routine, on its schedule, and for no
      other; a job that was there is kept; a new one is the owner's; everything else is left alone. */
  ghost predicate Reconciled(t: Table, t': Table, routines: seq<Routine>, owner: string, parse: string -> Option<Spec>) {
    && OneEach(t')
    && (forall name :: Wanted(routines, parse, name) ==> exists id :: Serves(t', id, name))
    && (forall id :: id in t' && RoutineJob(t'[id]) ==> Wanted(routines, parse, t'[id].instruction))
    && (forall k, id :: 0 <= k < |routines| && Serves(t', id, routines[k].name) ==> Asked(routines[k], parse) == Some(t'[id].schedule))
    && (forall id, name :: Serves(t, id, name) && Wanted(routines, parse, name) ==> Serves(t', id, name))
    && (forall id :: id in t && !RoutineJob(t[id]) ==> id in t' && t'[id] == t[id])
    && (forall id :: id in t' && id !in t ==> t'[id].kind == RoutineKind && t'[id].session == owner)
  }

  /** A second pass keeps every job id. The clock may have moved in between, so that a text parses to
      another instant; what counts is which texts parse at all. */
  lemma SecondPassKeeps(t: Table, t': Table, t'': Table, routines: seq<Routine>, owner: string,
                        parse: string -> Option<Spec>, parse': string -> Option<Spec>)
    requires forall text :: parse(text).Some? <==> parse'(text).Some?
    requires Reconciled(t, t', routines, owner, parse) && Reconciled(t', t'', routines, owner, parse')
    ensures forall id, name :: Serves(t', id, name) <==> Serves(t'', id, name)
  {
    forall name ensures Wanted(routines, parse, name) <==> Wanted(routines, parse', name) {
      SameWanted(routines, parse, parse', name);
      SameWanted(routines, parse', parse, name);
    }
    hide Wanted;
    forall id, name | Serves(t'', id, name) ensures Serves(t', id, name) {
      var i :| Serves(t', i, name);
      assert Serves(t'', i, name);
    }
  }

  /** A routine that is disabled, has no schedule or one that cannot be read, has no active job; any other has
      one, on that schedule. */
  lemma JobsOf(t: Table, t': Table, routines: seq<Routine>, owner: string, parse: string -> Option<Spec>, k: nat)
    requires Reconciled(t, t', routines, owner, parse) && Named(routines) && k < |routines|
    ensures var r := routines[k];
            var idle := !r.enabled || r.schedule.None? || r.schedule == Some("") || parse(r.schedule.value).None?;
            && (idle ==> forall id :: id in t' && t'[id].kind == RoutineKind && t'[id].active ==> t'[id].instruction != r.name)
            && (!idle ==> exists id :: id in t' && t'[id].kind == RoutineKind && t'[id].active && t'[id].instruction == r.name
                                       && Some(t'[id].schedule) == parse(r.schedule.value))
  {
    var r := routines[k];
    if Asked(r, parse).Some? {
      assert Wanted(routines, parse, r.name);
      var id :| Serves(t', id, r.name);
      assert t'[id].instruction == r.name;
    } else {
      NothingWanted(routines, parse, k);
    }
  }

  lemma NothingWanted(routines: seq<Routine>, parse: string -> Option<Spec>, k: nat)
    requires Named(routines) && k < |routines| && Asked(routines[k], parse).None?
    ensures !Wanted(routines, parse, routines[k].name)
  {
  }

  lemma SameWanted(routines: seq<Routine>, parse: string -> Option<Spec>, parse': string -> Option<Spec>, name: string)
    requires forall text :: parse(text).Some? ==> parse'(text).Some?
    ensures Wanted(routines, parse, name) ==> Wanted(routines, parse', name)
  {
    if Wanted(routines, parse, name) {
      var k :| 0 <= k < |routines| && routines[k].name == name && Asked(routines[k], parse).Some?;
      assert Asked(routines[k], parse').Some?;
    }
  }

  /** `jobs` names the active job of every routine that has one. */
  ghost predicate Index(t: Table, jobs: map<string, string>) {
    && (forall name :: name in jobs ==> Serves(t, jobs[name], name))
    && (forall id :: id in t && RoutineJob(t[id]) ==> t[id].instruction in jobs && jobs[t[id].instruction] == id)
  }

  /** How far reconciling has come: the first n routines have been dealt with. */
  ghost predicate Underway(t: Table, t': Table, routines: seq<Routine>, owner: string, parse: string -> Option<Spec>, n: nat,
                           existing: map<string, string>, jobs: map<string, string>) {
    && n <= |routines|
    && Index(t, existing) && Index(t', jobs)
    && (forall name :: name in jobs <==> name in existing || Wanted(routines[..n], parse, name))
    && (forall name :: name in existing ==> jobs[name] == existing[name])
    && (forall k :: 0 <= k < n && Asked(routines[k], parse).Some? ==>
          routines[k].name in jobs && Asked(routines[k], parse) == Some(t'[jobs[routines[k].name]].schedule))
    && (forall id :: id in t ==> id in t' && (!RoutineJob(t[id]) ==> t'[id] == t[id]))
    && (forall id :: id in t' && id !in t ==> t'[id].kind == RoutineKind && t'[id].session == owner)
  }

  lemma WantedNext(routines: seq<Routine>, parse: string -> Option<Spec>, n: nat, name: string)
    requires n < |routines|
    ensures Wanted(routines[..n + 1], parse, name)
       <==> Wanted(routines[..n], parse, name) || (routines[n].name == name && Asked(routines[n], parse).Some?)
  {
    var a, b := routines[..n], routines[..n + 1];
    assert forall k :: 0 <= k < n ==> a[k] == b[k];
    if Wanted(a, parse, name) {
      var k :| 0 <= k < |a| && a[k].name == name && Asked(a[k], parse).Some?;
      assert b[k].name == name;
    }
    if Wanted(b, parse, name) {
      var k :| 0 <= k < |b| && b[k].name == name && Asked(b[k], parse).Some?;
      if k < n { assert a[k].name == name; }
    }
    if routines[n].name == name && Asked(routines[n], parse).Some? { assert b[n].name == name; }
  }

  /** A routine that asks for nothing is passed over. */
  lemma Skip(t: Table, t': Table, routines: seq<Routine>, owner: string, parse: string -> Option<Spec>, n: nat,
             existing: map<string, string>, jobs: map<string, string>)
    requires Underway(t, t', routines, owner, parse, n, existing, jobs) && n < |routines| && Asked(routines[n], parse).None?
    ensures Underway(t, t', routines, owner, parse, n + 1, existing, jobs)
  {
    hide Wanted;
    hide Index;
    forall name { WantedNext(routines, parse, n, name); }
  }

  /** A routine with a job: that job takes the schedule. */
  lemma Keep(t: Table, t': Table, t'': Table, routines: seq<Routine>, owner: string, parse: string -> Option<Spec>, n: nat,
             existing: map<string, string>, jobs: map<string, string>, now: int)
    requires Underway(t, t', routines, owner, parse, n, existing, jobs) && n < |routines| && Named(routines)
    requires Asked(routines[n], parse).Some? && routines[n].name in existing
    requires var id := existing[routines[n].name];
             id in t' && t'' == t'[id := Updated(t'[id], None, Asked(routines[n], parse), now)]
    ensures Underway(t, t'', routines, owner, parse, n + 1, existing, jobs)
  {
    hide Wanted;
    hide NextRun;
    forall name { WantedNext(routines, parse, n, name); }
    assert Serves(t', jobs[routines[n].name], routines[n].name);
    forall k | 0 <= k < n && Asked(routines[k], parse).Some?
      ensures routines[k].name in jobs && Asked(routines[k], parse) == Some(t''[jobs[routines[k].name]].schedule)
    {
      assert Serves(t', jobs[routines[k].name], routines[k].name);
    }
  }

  /** A routine without one: it gets a new job. */
  lemma Give(t: Table, t': Table, t'': Table, routines: seq<Routine>, parse: string -> Option<Spec>, n: nat,
             existing: map<string, string>, jobs: map<string, string>, id: string, owner: string, now: int)
    requires Underway(t, t', routines, owner, parse, n, existing, jobs) && n < |routines| && Named(routines)
    requires Asked(routines[n], parse).Some? && routines[n].name !in existing && id !in t'
    requires t'' == t'[id := NewJob(routines[n].name, Asked(routines[n], parse).value, owner, RoutineKind, now)]
    ensures Underway(t, t'', routines, owner, parse, n + 1, existing, jobs[routines[n].name := id])
  {
    hide Wanted;
    hide NextRun;
    forall name { WantedNext(routines, parse, n, name); }
    NotWantedYet(routines, parse, n);
    forall k | 0 <= k < n && Asked(routines[k], parse).Some?
      ensures routines[k].name in jobs && Asked(routines[k], parse) == Some(t''[jobs[routines[k].name]].schedule)
    {
      assert Serves(t', jobs[routines[k].name], routines[k].name);
    }
  }

  lemma NotWantedYet(routines: seq<Routine>, parse: string -> Option<Spec>, n: nat)
    requires n < |routines| && Named(routines)
    ensures !Wanted(routines[..n], parse, routines[n].name)
  {}

  /** Where the cancelling has come: the jobs of the names in `left` are still to be looked at. */
  ghost predicate Cancelling(t: Table, t': Table, routines: seq<Routine>, owner: string, parse: string -> Option<Spec>,
                             existing: map<string, string>, jobs: map<string, string>, left: set<string>) {
    && Index(t, existing) && Index(t', jobs)
    && (forall name :: name in jobs <==> Wanted(routines, parse, name) || name in left)
    && (forall name :: name in existing && name in jobs ==> jobs[name] == existing[name])
    && (forall k :: 0 <= k < |routines| && Asked(routines[k], parse).Some? ==>
          routines[k].name in jobs && Asked(routines[k], parse) == Some(t'[jobs[routines[k].name]].schedule))
    && (forall id :: id in t ==> id in t' && (!RoutineJob(t[id]) ==> t'[id] == t[id]))
    && (forall id :: id in t' && id !in t ==> t'[id].kind == RoutineKind && t'[id].session == owner)
  }

  lemma CancelStarts(t: Table, t': Table, routines: seq<Routine>, owner: string, parse: string -> Option<Spec>,
                     existing: map<string, string>, jobs: map<string, string>)
    requires Underway(t, t', routines, owner, parse, |routines|, existing, jobs)
    ensures Cancelling(t, t', routines, owner, parse, existing, jobs, existing.Keys)
  {
    hide Wanted;
    hide Index;
    assert routines[..|routines|] == routines;
  }

  lemma Spare(t: Table, t': Table, routines: seq<Routine>, owner: string, parse: string -> Option<Spec>,
              existing: map<string, string>, jobs: map<string, string>, left: set<string>, name: string)
    requires Cancelling(t, t', routines, owner, parse, existing, jobs, left) && Wanted(routines, parse, name)
    ensures Cancelling(t, t', routines, owner, parse, existing, jobs, left - {name})
  {
    hide Wanted;
    hide Index;
  }

  lemma Drop(t: Table, t': Table, t'': Table, routines: seq<Routine>, owner: string, parse: string -> Option<Spec>,
             existing: map<string, string>, jobs: map<string, string>, left: set<string>, name: string)
    requires Cancelling(t, t', routines, owner, parse, existing, jobs, left) && !Wanted(routines, parse, name)
    requires name in left && name in existing
    requires existing[name] in t' && t'' == t'[existing[name] := t'[existing[name]].(active := false)]
    ensures Cancelling(t, t'', routines, owner, parse, existing, jobs - {name}, left - {name})
  {
    forall k | 0 <= k < |routines| && Asked(routines[k], parse).Some?
      ensures routines[k].name in jobs - {name} && Asked(routines[k], parse) == Some(t''[jobs[routines[k].name]].schedule)
    {
      assert Wanted(routines, parse, routines[k].name);
    }
    hide Wanted;
    forall n | n in jobs - {name} ensures Serves(t'', (jobs - {name})[n], n) {
      assert Serves(t', jobs[n], n);
    }
  }

  lemma CancelEnds(t: Table, t': Table, routines: seq<Routine>, owner: string, parse: string -> Option<Spec>,
                   existing: map<string, string>, jobs: map<string, string>)
    requires Cancelling(t, t', routines, owner, parse, existing, jobs, {}) && Named(routines)
    ensures Reconciled(t, t', routines, owner, parse)
  {
    forall name | Wanted(routines, parse, name) ensures exists id :: Serves(t', id, name) {
      assert Serves(t', jobs[name], name);
    }
    forall k, id | 0 <= k < |routines| && Serves(t', id, routines[k].name)
      ensures Asked(routines[k], parse) == Some(t'[id].schedule)
    {
      assert Wanted(routines, parse, routines[k].name);
      var i :| 0 <= i < |routines| && routines[i].name == routines[k].name && Asked(routines[i], parse).Some?;
      assert i == k;
    }
  }

  // ---- the algorithm -------------------------------------------------------------------

  /** {j.instruction: j for every active routine job j} */
  method Existing(s: Scheduler) returns (existing: map<string, string>)
    requires s.Valid() && OneEach(s.Table())
    ensures Index(s.Table(), existing)
  {
    existing := map[];
    var left := s.jobs.Keys;
    while left != {}
      invariant left <= s.jobs.Keys
      invariant forall name :: name in existing ==> existing[name] !in left && Serves(s.Table(), existing[name], name)
      invariant forall id :: id in s.jobs && id !in left && RoutineJob(s.Table()[id]) ==>
        s.Table()[id].instruction in existing && existing[s.Table()[id].instruction] == id
      decreases left
    {
      var id :| id in left;
      left := left - {id};
      var j := s.jobs[id];
      assert s.Table()[id] == j.State();
      if j.kind == RoutineKind && j.active {
        existing := existing[j.instruction := id];
      }
    }
  }

  /** Bring the job table in line with the routines. */
  method SyncRoutineSchedules(s: Scheduler, routines: seq<Routine>, parse: string -> Option<Spec>,
                              owner: string, ids: seq<string>)
    requires s.Valid() && OneEach(s.Table()) && Named(routines)
    requires |ids| == |routines| && NoDuplicates(ids) && forall k :: 0 <= k < |ids| ==> ids[k] !in s.jobs
    modifies s, s.jobs.Values
    ensures s.Valid() && Reconciled(old(s.Table()), s.Table(), routines, owner, parse)
  {
    hide Reconciled;
    hide Underway;
    hide Cancelling;
    hide Index;
    ghost var was := s.Table();
    var existing := Existing(s);
    ghost var jobs;
    var wanted;
    wanted, jobs := Provide(s, routines, parse, owner, ids, existing);
    CancelStarts(was, s.Table(), routines, owner, parse, existing, jobs);
    jobs := Prune(s, was, routines, owner, parse, existing, wanted, jobs);
    CancelEnds(was, s.Table(), routines, owner, parse, existing, jobs);
  }

  /** Every routine that asks for a job keeps the one it has or gets a new one. */
  method Provide(s: Scheduler, routines: seq<Routine>, parse: string -> Option<Spec>, owner: string, ids: seq<string>,
                 existing: map<string, string>) returns (wanted: set<string>, ghost jobs: map<string, string>)
    requires s.Valid() && Index(s.Table(), existing) && Named(routines)
    requires |ids| == |routines| && NoDuplicates(ids) && forall k :: 0 <= k < |ids| ==> ids[k] !in s.jobs
    modifies s, s.jobs.Values
    ensures s.Valid() && forall v :: v in s.jobs.Values ==> v in old(s.jobs.Values) || fresh(v)
    ensures Underway(old(s.Table()), s.Table(), routines, owner, parse, |routines|, existing, jobs)
    ensures forall name :: name in wanted <==> Wanted(routines, parse, name)
  {
    hide Underway;
    hide Index;
    hide Updated;
    hide NewJob;
    hide Wanted;
    ghost var was := s.Table();
    hide WantedSet;
    WantedSetEnds(routines, parse);
    jobs := existing;
    UnderwayStarts(was, routines, owner, parse, existing);
    wanted := {};
    for i := 0 to |routines|
      invariant s.Valid() && s.jobs.Keys <= was.Keys + IdsUpTo(ids, i)
      invariant forall v :: v in s.jobs.Values ==> v in old(s.jobs.Values) || fresh(v)
      invariant Underway(was, s.Table(), routines, owner, parse, i, existing, jobs)
      invariant WantedSet(wanted, routines, parse, i)
    {
      var r := routines[i];
      var spec := Asked(r, parse);
      WantedSetNext(wanted, routines, parse, i);
      IdUnused(ids, i);
      ghost var before := s.Table();
      if spec.None? {
        Skip(was, before, routines, owner, parse, i, existing, jobs);
        continue;
      }
      wanted := wanted + {r.name};
      ghost var now := s.clock(s.readings);
      if r.name in existing {
        ExistingThere(was, before, routines, owner, parse, i, existing, jobs, r.name);
        var _ := s.Update(existing[r.name], None, None, spec);
        Keep(was, before, s.Table(), routines, owner, parse, i, existing, jobs, now);
      } else {
        var _ := s.Add(ids[i], r.name, spec.value, owner, RoutineKind);
        Give(was, before, s.Table(), routines, parse, i, existing, jobs, ids[i], owner, now);
        jobs := jobs[r.name := ids[i]];
      }
    }
  }

  /** Jobs of routines that no longer ask for one are cancelled. */
  method Prune(s: Scheduler, ghost was: Table, routines: seq<Routine>, ghost owner: string, parse: string -> Option<Spec>,
               existing: map<string, string>, wanted: set<string>, ghost jobs0: map<string, string>)
    returns (ghost jobs: map<string, string>)
    requires s.Valid() && Cancelling(was, s.Table(), routines, owner, parse, existing, jobs0, existing.Keys)
    requires forall name :: name in wanted <==> Wanted(routines, parse, name)
    modifies s.jobs.Values
    ensures s.Valid() && Cancelling(was, s.Table(), routines, owner, parse, existing, jobs, {})
  {
    hide Cancelling;
    hide Wanted;
    jobs := jobs0;
    var left := existing.Keys;
    while left != {}
      invariant s.Valid() && left <= existing.Keys
      invariant Cancelling(was, s.Table(), routines, owner, parse, existing, jobs, left)
      decreases left
    {
      var name :| name in left;
      ghost var before := s.Table();
      if name !in wanted {
        CancelThere(was, before, routines, owner, parse, existing, jobs, left, name);
        var _ := s.Cancel(existing[name], None);
        Drop(was, before, s.Table(), routines, owner, parse, existing, jobs, left, name);
        jobs := jobs - {name};
      } else {
        Spare(was, before, routines, owner, parse, existing, jobs, left, name);
      }
      left := left - {name};
    }
  }

  ghost predicate WantedSet(wanted: set<string>, routines: seq<Routine>, parse: string -> Option<Spec>, n: nat) {
    n <= |routines| && forall name :: name in wanted <==> Wanted(routines[..n], parse, name)
  }

  lemma WantedSetNext(wanted: set<string>, routines: seq<Routine>, parse: string -> Option<Spec>, n: nat)
    requires n < |routines| && WantedSet(wanted, routines, parse, n)
    ensures WantedSet(if Asked(routines[n], parse).Some? then wanted + {routines[n].name} else wanted, routines, parse, n + 1)
  {
    hide Wanted;
    forall name { WantedNext(routines, parse, n, name); }
  }

  lemma WantedSetEnds(routines: seq<Routine>, parse: string -> Option<Spec>)
    ensures WantedSet({}, routines, parse, 0)
    ensures forall wanted :: WantedSet(wanted, routines, parse, |routines|) ==>
      forall name :: name in wanted <==> Wanted(routines, parse, name)
  {
    assert routines[..|routines|] == routines;
  }

  ghost function IdsUpTo(ids: seq<string>, n: nat): set<string>
    requires n <= |ids|
  {
    set k | 0 <= k < n :: ids[k]
  }

  lemma IdUnused(ids: seq<string>, n: nat)
    requires NoDuplicates(ids) && n < |ids|
    ensures ids[n] !in IdsUpTo(ids, n)
    ensures IdsUpTo(ids, n + 1) == IdsUpTo(ids, n) + {ids[n]}
  {}

  lemma UnderwayStarts(t: Table, routines: seq<Routine>, owner: string, parse: string -> Option<Spec>, existing: map<string, string>)
    requires Index(t, existing)
    ensures Underway(t, t, routines, owner, parse, 0, existing, existing)
  {
    hide Index;
  }

  lemma ExistingThere(t: Table, t': Table, routines: seq<Routine>, owner: string, parse: string -> Option<Spec>, n: nat,
                      existing: map<string, string>, jobs: map<string, string>, name: string)
    requires Underway(t, t', routines, owner, parse, n, existing, jobs) && name in existing
    ensures existing[name] in t'
  {}

  lemma CancelThere(t: Table, t': Table, routines: seq<Routine>, owner: string, parse: string -> Option<Spec>,
                    existing: map<string, string>, jobs: map<string, string>, left: set<string>, name: string)
    requires Cancelling(t, t', routines, owner, parse, existing, jobs, left) && name in existing
    ensures existing[name] in t'
  {}
}
