/** Properties of the jobs service that relate several calls: round trips,
    idempotence, the invariant every call keeps, and the two places where the
    source does not do what it evidently means to. */
module JobsProperties {
  import opened Values
  import opened Records
  import Store
  import opened Scheduler
  import opened Jobs

  // ---------------------------------------------------------------------
  // The consistency invariant
  // ---------------------------------------------------------------------

  /** Every registered timer is named after the job id it is registered
      under, and every live timer belongs to a stored job. */
  predicate Consistent(s: State)
  {
    && (forall id :: id in s.timers ==> s.timers[id].setup.id == id)
    && (forall id :: id in s.timers && s.timers[id].state.Live? ==> id in s.db)
  }

  /** One call into the service, or one step of a timer's fire. */
  datatype Call =
    | Create(fields: Fields, nowMs: nat)
    | Run(id: JobId)
    | PauseCall(id: JobId)
    | StopCall(id: JobId)
    | Delete(id: JobId)
    | Update(id: JobId, fields: Fields)
    | Begin(id: JobId)
    | Complete(id: JobId, result: Outcome, startedAt: int, finishedAt: int)

  /** The state a call leaves behind, whether or not it threw. */
  function Apply(lib: Croner, s: State, c: Call): State
  {
    match c
    case Create(f, nowMs) => CreateJob(lib, s, f, nowMs).state
    case Run(id) => RunJob(lib, s, id).state
    case PauseCall(id) => PauseJob(s, id)
    case StopCall(id) => StopJob(lib, s, id)
    case Delete(id) => DeleteJob(lib, s, id)
    case Update(id, f) => UpdateJob(lib, s, id, f).state
    case Begin(id) => Jobs.BeginFire(s, id)
    case Complete(id, result, t0, t1) => CompleteFire(s, id, result, t0, t1).state
  }

  /** Every call keeps the state consistent, except an update that arms a
      job id the store does not hold. */
  lemma ConsistencyPreserved(lib: Croner, s: State, c: Call)
    requires Consistent(s)
    requires c.Update? ==> c.id in s.db || !AutoStart(c.fields)
    ensures Consistent(Apply(lib, s, c))
  {
    match c
    case Create(f, nowMs) => CreateKeepsConsistency(lib, s, f, nowMs);
    case Run(id) => RunKeepsConsistency(lib, s, id);
    case PauseCall(id) => PauseKeepsConsistency(s, id);
    case StopCall(id) => StopKeepsConsistency(lib, s, id);
    case Delete(id) => DeleteKeepsConsistency(lib, s, id);
    case Update(id, f) => UpdateKeepsConsistency(lib, s, id, f);
    case Begin(id) => BeginKeepsConsistency(s, id);
    case Complete(id, result, t0, t1) => CompleteKeepsConsistency(s, id, result, t0, t1);
  }

  lemma CreateKeepsConsistency(lib: Croner, s: State, f: Fields, nowMs: nat)
    requires Consistent(s)
    ensures Consistent(CreateJob(lib, s, f, nowMs).state)
  {
    var id := Store.GenerateId(nowMs);
    assert Armed(id, f).setup.id == id;
  }

  lemma RunKeepsConsistency(lib: Croner, s: State, id: JobId)
    requires Consistent(s)
    ensures Consistent(RunJob(lib, s, id).state)
  {
    if id !in s.timers && id in s.db {
      assert Armed(id, s.db[id].fields).setup.id == id;
    }
  }

  lemma PauseKeepsConsistency(s: State, id: JobId)
    requires Consistent(s)
    ensures Consistent(PauseJob(s, id))
  {
  }

  lemma StopKeepsConsistency(lib: Croner, s: State, id: JobId)
    requires Consistent(s)
    ensures Consistent(StopJob(lib, s, id))
  {
  }

  lemma DeleteKeepsConsistency(lib: Croner, s: State, id: JobId)
    requires Consistent(s)
    ensures Consistent(DeleteJob(lib, s, id))
  {
  }

  lemma UpdateKeepsConsistency(lib: Croner, s: State, id: JobId, f: Fields)
    requires Consistent(s)
    requires id in s.db || !AutoStart(f)
    ensures Consistent(UpdateJob(lib, s, id, f).state)
  {
    assert Armed(id, f).setup.id == id;
  }

  lemma BeginKeepsConsistency(s: State, id: JobId)
    requires Consistent(s)
    ensures Consistent(Jobs.BeginFire(s, id))
  {
  }

  lemma CompleteKeepsConsistency(s: State, id: JobId, result: Outcome, t0: int, t1: int)
    requires Consistent(s)
    ensures Consistent(CompleteFire(s, id, result, t0, t1).state)
  {
  }

  /** `startJobs` keeps the state consistent too. */
  lemma StartJobsPreservesConsistency(lib: Croner, s: State, order: seq<JobId>)
    requires Consistent(s)
    requires forall i :: 0 <= i < |order| ==> order[i] in s.db
    requires Distinct(order)
    ensures Consistent(StartJobs(lib, s, order).state)
    decreases |order|
  {
    if |order| > 0 {
      var id := order[0];
      var f := s.db[id].fields;
      assert forall i :: 0 <= i < |order| - 1 ==> order[1..][i] == order[i + 1];
      if !AutoStart(f) {
        StartJobsPreservesConsistency(lib, s, order[1..]);
      } else if CanSetup(lib, s.timers, id, f) {
        var s1 := s.(timers := SetupJob(lib, s.timers, id, f).value);
        assert Armed(id, f).setup.id == id;
        assert Consistent(s1);
        StartJobsPreservesConsistency(lib, s1, order[1..]);
      }
    }
  }

  /** The exception: updating an id the store does not hold, with a truthy
      `autoStart`, arms a live timer for a job that does not exist. */
  lemma UpdateOfUnknownIdArmsOrphan(lib: Croner, s: State, id: JobId, f: Fields)
    requires id !in s.db && AutoStart(f) && Schedulable(lib, SetupOf(id, f))
    requires lib.stopUnregisters || id !in s.timers
    ensures var r := UpdateJob(lib, s, id, f);
      && StatusOf(r.state.timers, id) == Active
      && GetJob(lib, r.state, id, 0).None?
      && !Consistent(r.state)
  {
  }

  // ---------------------------------------------------------------------
  // startJobs
  // ---------------------------------------------------------------------

  /** At application start (no timers yet), when every auto-started job has
      a schedule the library accepts, `startJobs` arms exactly the stored jobs
      whose `autoStart` is truthy, each one active, and leaves every other job
      stopped. */
  lemma StartJobsArmsExactlyAutoStart(lib: Croner, db: Store.Db, order: seq<JobId>)
    requires Store.IsListing(db, order)
    requires forall id :: id in db && AutoStart(db[id].fields) ==> Schedulable(lib, SetupOf(id, db[id].fields))
    ensures var r := StartJobs(lib, State(db, map[]), order);
      && r.error.None?
      && r.state.timers.Keys == set id | id in db && AutoStart(db[id].fields)
      && (forall id :: id in db ==> (StatusOf(r.state.timers, id) == Active <==> AutoStart(db[id].fields)))
      && (forall id :: id in db && !AutoStart(db[id].fields) ==> StatusOf(r.state.timers, id) == Stopped)
  {
    var r := StartJobs(lib, State(db, map[]), order);
    assert forall i :: 0 <= i < |order| && AutoStart(db[order[i]].fields) ==>
      Schedulable(lib, SetupOf(order[i], db[order[i]].fields));
    assert r.error.None?;
  }

  // ---------------------------------------------------------------------
  // createJob and the read that follows it
  // ---------------------------------------------------------------------

  /** A created job reads back with exactly the fields given, no executions,
      and a status that is active exactly when it was auto-started with an
      accepted schedule, stopped otherwise. */
  lemma CreateThenGet(lib: Croner, s: State, f: Fields, nowMs: nat, readMs: int)
    requires Store.GenerateId(nowMs) !in s.db && Store.GenerateId(nowMs) !in s.timers
    ensures var id := Store.GenerateId(nowMs);
      var r := CreateJob(lib, s, f, nowMs);
      var v := GetJob(lib, r.state, id, readMs);
      && v.Some?
      && v.value.job == Job(f, [])
      && v.value.lastExecutionStatus == Never
      && (v.value.status == Active <==> AutoStart(f) && Schedulable(lib, SetupOf(id, f)))
      && (v.value.status != Active ==> v.value.status == Stopped && r.state.timers == s.timers)
  {
  }

  // ---------------------------------------------------------------------
  // pauseJob and runJob
  // ---------------------------------------------------------------------

  /** Pausing an active job makes it paused with no next execution; running
      it again restores the state exactly, with the schedule it had. */
  lemma PauseThenRun(lib: Croner, s: State, id: JobId, readMs: int)
    requires StatusOf(s.timers, id) == Active
    ensures var p := PauseJob(s, id);
      && StatusOf(p.timers, id) == Paused
      && (id in s.db ==> Fill(lib, p.timers, id, s.db[id], readMs).nextExecution.None?)
      && RunJob(lib, p, id) == Step(s, None)
  {
    PauseResume(s.timers, id);
  }

  /** Pausing a job that has no timer changes nothing. */
  lemma PauseWithoutTimerIsNoop(s: State, id: JobId)
    requires id !in s.timers
    ensures PauseJob(s, id) == s
  {
  }

  // ---------------------------------------------------------------------
  // stopJob and deleteJob
  // ---------------------------------------------------------------------

  /** After a stop the job is stopped and stored with `autoStart` false. */
  lemma StopMakesStopped(lib: Croner, s: State, id: JobId)
    ensures var r := StopJob(lib, s, id);
      && StatusOf(r.timers, id) == Stopped
      && (id in s.db ==> !AutoStart(r.db[id].fields))
  {
  }

  /** Stopping twice leaves the same state as stopping once. */
  lemma StopIsIdempotent(lib: Croner, s: State, id: JobId)
    ensures StopJob(lib, StopJob(lib, s, id), id) == StopJob(lib, s, id)
  {
    StopIdempotent(lib, s.timers, id);
    if id in s.db {
      MergeIdempotent(s.db[id].fields, AutoStartOnly(false));
    }
  }

  /** Whether "run" after "stop" re-arms depends on the library: when a stop
      removes the timer from the registry, run arms the stored job again and
      it becomes active; when the killed timer stays registered, run only
      resumes it and the job stays stopped. */
  lemma RunAfterStop(lib: Croner, s: State, id: JobId)
    requires id in s.db
    ensures var st := StopJob(lib, s, id);
      lib.stopUnregisters && Schedulable(lib, SetupOf(id, s.db[id].fields)) ==>
        StatusOf(RunJob(lib, st, id).state.timers, id) == Active
    ensures var st := StopJob(lib, s, id);
      !lib.stopUnregisters && id in s.timers ==>
        RunJob(lib, st, id) == Step(st, None) && StatusOf(st.timers, id) == Stopped
  {
    var st := StopJob(lib, s, id);
    assert SetupOf(id, st.db[id].fields) == SetupOf(id, s.db[id].fields);
  }

  /** A deleted job is gone from the store and has no live timer, whatever
      state its timer was in. */
  lemma DeleteRemovesEverywhere(lib: Croner, s: State, id: JobId, readMs: int)
    ensures var r := DeleteJob(lib, s, id);
      && GetJob(lib, r, id, readMs).None?
      && StatusOf(r.timers, id) == Stopped
  {
  }

  // ---------------------------------------------------------------------
  // updateJob
  // ---------------------------------------------------------------------

  /** An update never touches the execution history. */
  lemma UpdateKeepsHistory(lib: Croner, s: State, id: JobId, f: Fields)
    requires id in s.db
    ensures var r := UpdateJob(lib, s, id, f);
      id in r.state.db && r.state.db[id].executions == s.db[id].executions
  {
  }

  /** A re-armed timer carries the fields the update was given, not the
      merged stored record: the stored record keeps its frequency when the
      update leaves it out, but the timer is armed without one, so the
      library rejects it. */
  lemma PartialUpdateArmsFromArguments(lib: Croner, s: State, id: JobId, f: Fields)
    requires id in s.db && AutoStart(f) && f.frequency.None? && s.db[id].fields.frequency.Some?
    ensures var r := UpdateJob(lib, s, id, f);
      && r.state.db[id].fields.frequency == s.db[id].fields.frequency
      && r.error == Some(ScheduleRejected(id))
      && StatusOf(r.state.timers, id) == Stopped
  {
  }

  /** When the stop frees the job's name, an update that keeps `autoStart`
      replaces the old timer by one armed with the new frequency. */
  lemma UpdateRearmsWithNewSchedule(lib: Croner, s: State, id: JobId, f: Fields)
    requires AutoStart(f) && Schedulable(lib, SetupOf(id, f))
    requires lib.stopUnregisters || id !in s.timers
    ensures var r := UpdateJob(lib, s, id, f);
      && r.error.None?
      && StatusOf(r.state.timers, id) == Active
      && r.state.timers[id].setup == SetupOf(id, f)
      && r.state.timers[id].setup.frequency == f.frequency
  {
  }

  /** When the library keeps a stopped timer registered, an update of a job
      that had a timer cannot bring it back: re-arming throws on the taken
      name, or registers a timer that `find` never reaches, and the job reads
      as stopped either way, with the old schedule. */
  lemma UpdateOfKeptTimerStaysStopped(lib: Croner, s: State, id: JobId, f: Fields)
    requires AutoStart(f) && Schedulable(lib, SetupOf(id, f))
    requires !lib.stopUnregisters && id in s.timers
    ensures var r := UpdateJob(lib, s, id, f);
      && StatusOf(r.state.timers, id) == Stopped
      && r.state.timers[id].setup == s.timers[id].setup
      && (r.error.Some? <==> lib.takenNameThrows)
      && (r.error.Some? ==> r.error.value == NameTaken(id))
  {
  }

  // ---------------------------------------------------------------------
  // Firing
  // ---------------------------------------------------------------------

  /** A fire of an active job reports it running while the callback is in
      progress; when it completes the job is active again with exactly one more
      execution, whose failure flag decides the last execution status. */
  lemma FireRecordsOutcome(lib: Croner, s: State, id: JobId, result: Outcome, t0: int, t1: int)
    requires id in s.db && StatusOf(s.timers, id) == Active
    ensures var b := Jobs.BeginFire(s, id);
      var c := CompleteFire(b, id, result, t0, t1);
      && StatusOf(b.timers, id) == Running
      && StatusOf(c.state.timers, id) == Active
      && c.error.None?
      && |c.state.db[id].executions| == |s.db[id].executions| + 1
      && LastStatusOf(c.state.db[id].executions) == (if result.failed then Failed else Success)
  {
  }

  /** The fire callback as written records nothing: the store is unchanged
      and the callback throws. */
  lemma FireAsWrittenRecordsNothing(s: State, id: JobId, result: Outcome, t0: int, t1: int)
    ensures var r := CompleteFireAsWritten(s, id, result, t0, t1);
      && r.state.db == s.db
      && r.error == Some(NoSuchMethod("createJobExecution"))
  {
    assert "createJobExecution" !in Store.Methods;
  }

  // ---------------------------------------------------------------------
  // The derived view
  // ---------------------------------------------------------------------

  /** The last execution status depends only on the last execution's flag. */
  lemma LastStatusOfAppend(es: seq<Execution>, e: Execution)
    ensures LastStatusOf(es + [e]) == (if e.failed then Failed else Success)
  {
  }

  /** Two histories ending in executions with the same flag have the same
      last execution status, whatever came before. */
  lemma LastStatusOnlyLastMatters(a: seq<Execution>, b: seq<Execution>)
    requires |a| > 0 && |b| > 0 && a[|a| - 1].failed == b[|b| - 1].failed
    ensures LastStatusOf(a) == LastStatusOf(b)
  {
  }

  /** Reading never changes what is stored: every listed view holds its stored
      job unchanged, and a view has a next execution only when active or running. */
  lemma ListJobsShowsStore(lib: Croner, s: State, order: seq<JobId>, readMs: int)
    requires Store.IsListing(s.db, order)
    ensures var vs := ListJobs(lib, s, order, readMs);
      && (forall i :: 0 <= i < |vs| ==> vs[i].job == s.db[vs[i].id])
      && (forall id :: id in s.db ==> exists i :: 0 <= i < |vs| && vs[i].id == id)
      && (forall i :: 0 <= i < |vs| && vs[i].nextExecution.Some? ==> vs[i].status in {Running, Active})
  {
    var vs := ListJobs(lib, s, order, readMs);
    forall id | id in s.db
      ensures exists i :: 0 <= i < |vs| && vs[i].id == id
    {
      var i :| 0 <= i < |order| && order[i] == id;
      assert vs[i].id == id;
    }
  }

  // ---------------------------------------------------------------------
  // startJobs: one rejected schedule stops the walk
  // ---------------------------------------------------------------------

  /** A library that accepts only `* * * * *`. */
  function EveryMinuteOnly(): Croner
  {
    Croner((p, tz) => p == "* * * * *", m => m, (setup, t) => None, true, true)
  }

  function AutoJob(frequency: string): Job
  {
    Job(NoFields.(frequency := Some(frequency), autoStart := Some(true)), [])
  }

  /** Job "1" has a frequency the library rejects, job "2" a valid one; both
      are auto-started. As written, the outcome depends on listing order: when
      "1" comes first, "2" is never armed. */
  lemma StartJobsStopsAtFirstRejection()
    ensures var db := map["1" := AutoJob("bogus"), "2" := AutoJob("* * * * *")];
      && StartJobs(EveryMinuteOnly(), State(db, map[]), ["1", "2"]).error == Some(ScheduleRejected("1"))
      && "2" !in StartJobs(EveryMinuteOnly(), State(db, map[]), ["1", "2"]).state.timers
      && "2" in StartJobs(EveryMinuteOnly(), State(db, map[]), ["2", "1"]).state.timers
  {
    var lib := EveryMinuteOnly();
    var db := map["1" := AutoJob("bogus"), "2" := AutoJob("* * * * *")];
    assert !Schedulable(lib, SetupOf("1", db["1"].fields));
    assert Schedulable(lib, SetupOf("2", db["2"].fields));
    assert ["1", "2"][1..] == ["2"];
    assert ["2", "1"][1..] == ["1"];
  }

  /** With failures isolated, the jobs armed do not depend on listing order. */
  lemma {:induction false} StartJobsIsolatedOrderFree(lib: Croner, s: State, o1: seq<JobId>, o2: seq<JobId>)
    requires Store.IsListing(s.db, o1) && Store.IsListing(s.db, o2)
    ensures StartJobsIsolated(lib, s, o1).0 == StartJobsIsolated(lib, s, o2).0
  {
    var r1 := StartJobsIsolated(lib, s, o1).0;
    var r2 := StartJobsIsolated(lib, s, o2).0;
    assert forall k :: k in o1 <==> k in o2;
    assert r1.timers.Keys == r2.timers.Keys;
    forall k | k in r1.timers
      ensures r1.timers[k] == r2.timers[k]
    {
    }
    assert r1.timers == r2.timers;
  }

  /** With failures isolated, the valid job "2" is armed even when the
      rejected job "1" comes first. */
  lemma StartJobsIsolatedArmsValidJob()
    ensures var db := map["1" := AutoJob("bogus"), "2" := AutoJob("* * * * *")];
      var r := StartJobsIsolated(EveryMinuteOnly(), State(db, map[]), ["1", "2"]);
      && "2" in r.0.timers && StatusOf(r.0.timers, "2") == Active
      && r.1 == ["1"]
  {
    var lib := EveryMinuteOnly();
    var db := map["1" := AutoJob("bogus"), "2" := AutoJob("* * * * *")];
    assert !Schedulable(lib, SetupOf("1", db["1"].fields));
    assert Schedulable(lib, SetupOf("2", db["2"].fields));
    assert ["1", "2"][1..] == ["2"];
    assert ["2"][1..] == [];
  }
}
