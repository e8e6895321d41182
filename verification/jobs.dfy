/** The jobs service (`JobsService` in src/main/libs/jobs.js): every call is a
    pure transition of the pair (job store, timer registry).

    An `async` method that throws leaves behind whatever it changed before the
    throw; a `Step` records that state together with the error the caller's
    promise is rejected with. Clocks are parameters. */
module Jobs {
  import opened Values
  import opened Records
  import Store
  import opened Scheduler

  datatype State = State(db: Store.Db, timers: Registry)

  datatype Error =
    | StoreFailed(cause: Store.StoreError)   // the store rejected the write
    | ScheduleRejected(id: JobId)            // `Cron(...)` threw on this job's pattern
    | NameTaken(id: JobId)                   // `Cron(...)` threw because the name is registered
    | NoSuchMethod(name: string)             // the store object has no such method

  datatype Step = Step(state: State, error: Option<Error>)

  /** `setupJob`'s argument list, normalised as it hands it to the library. */
  function SetupOf(id: JobId, f: Fields): (s: Setup)
    ensures s.id == id && s.command == f.command && s.frequency == f.frequency
    ensures s.workDirectory.Some? <==> TruthyString(f.workDirectory)
    ensures s.timezone.Some? <==> TruthyString(f.timezone)
    ensures s.maxRuns.Some? <==> TruthyInt(f.maxExecutions)
    ensures s.workDirectory.Some? ==> s.workDirectory == f.workDirectory
    ensures s.timezone.Some? ==> s.timezone == f.timezone
    ensures s.maxRuns.Some? ==> s.maxRuns == f.maxExecutions
  {
    Setup(id, f.command, f.frequency, StringOrUndefined(f.workDirectory),
          IntOrUndefined(f.maxExecutions), StringOrUndefined(f.timezone))
  }

  /** The timer `setupJob` registers for a job with these fields. */
  function Armed(id: JobId, f: Fields): Timer
  {
    Fresh(SetupOf(id, f))
  }

  predicate AutoStart(f: Fields)
  {
    TruthyBool(f.autoStart)
  }

  /** `setupJob` succeeds in this registry. */
  predicate CanSetup(lib: Croner, reg: Registry, id: JobId, f: Fields)
  {
    Constructs(lib, reg, SetupOf(id, f))
  }

  /** The error `setupJob` throws when it cannot arm the job. */
  function SetupError(lib: Croner, id: JobId, f: Fields): Error
  {
    if Schedulable(lib, SetupOf(id, f)) then NameTaken(id) else ScheduleRejected(id)
  }

  /** `setupJob`: arms a timer named after the job, or throws. A job whose
      name is already registered keeps the timer it had. */
  function SetupJob(lib: Croner, reg: Registry, id: JobId, f: Fields): (r: Result<Registry, Error>)
    ensures r.Ok? <==> Schedulable(lib, SetupOf(id, f)) && (id !in reg || !lib.takenNameThrows)
    ensures r.Err? && !Schedulable(lib, SetupOf(id, f)) ==> r.error == ScheduleRejected(id)
    ensures r.Err? && Schedulable(lib, SetupOf(id, f)) ==> r.error == NameTaken(id) && id in reg
    ensures r.Ok? && id !in reg ==> r.value == reg[id := Armed(id, f)]
    ensures r.Ok? && id in reg ==> r.value == reg
  {
    match Arm(lib, reg, SetupOf(id, f))
    case Ok(reg') => Ok(reg')
    case Err(PatternRejected(_)) => Err(ScheduleRejected(id))
    case Err(NameRegistered(_)) => Err(NameTaken(id))
  }

  // ---------------------------------------------------------------------
  // startJobs
  // ---------------------------------------------------------------------

  /** The ids of a listing are pairwise distinct, as `getJobs` returns
      every document once. */
  predicate Distinct(order: seq<JobId>)
  {
    forall i, j :: 0 <= i < j < |order| ==> order[i] != order[j]
  }

  /** `startJobs`: walks the stored jobs in listing order and arms each one
      whose `autoStart` is truthy. `forEach` does not catch, so the first
      `setupJob` that throws ends the walk and rejects the call; the timers
      armed before it stay armed (`StartJobsFailsAtFirst`). */
  function StartJobs(lib: Croner, s: State, order: seq<JobId>): (r: Step)
    requires forall i :: 0 <= i < |order| ==> order[i] in s.db
    requires Distinct(order)
    ensures r.state.db == s.db
    ensures r.error.None? <==>
      forall i :: 0 <= i < |order| && AutoStart(s.db[order[i]].fields) ==>
        CanSetup(lib, s.timers, order[i], s.db[order[i]].fields)
    ensures r.error.Some? ==>
      exists i :: (0 <= i < |order|
        && AutoStart(s.db[order[i]].fields)
        && !CanSetup(lib, s.timers, order[i], s.db[order[i]].fields)
        && r.error.value == SetupError(lib, order[i], s.db[order[i]].fields))
    ensures r.error.None? ==> forall k ::
      k in r.state.timers <==> k in s.timers || (k in order && AutoStart(s.db[k].fields))
    ensures r.error.None? ==> forall k ::
      k in order && AutoStart(s.db[k].fields) && k !in s.timers ==> r.state.timers[k] == Armed(k, s.db[k].fields)
    ensures forall k :: k in s.timers ==> k in r.state.timers && r.state.timers[k] == s.timers[k]
    decreases |order|
  {
    if |order| == 0 then Step(s, None)
    else
      var id := order[0];
      var f := s.db[id].fields;
      assert forall i :: 0 <= i < |order| - 1 ==> order[1..][i] == order[i + 1];
      if !AutoStart(f) then StartJobs(lib, s, order[1..])
      else match SetupJob(lib, s.timers, id, f)
        case Err(e) => Step(s, Some(e))
        case Ok(timers) => StartJobs(lib, s.(timers := timers), order[1..])
  }

  /** The state after `startJobs` has armed `id`, when it could. */
  function ArmedFirst(s: State, id: JobId): State
    requires id in s.db
  {
    if AutoStart(s.db[id].fields) && id !in s.timers then
      s.(timers := s.timers[id := Armed(id, s.db[id].fields)])
    else s
  }

  /** A first job that `setupJob` can arm, or need not, lets the walk go on. */
  lemma StartJobsPassesFirst(lib: Croner, s: State, order: seq<JobId>)
    requires forall j :: 0 <= j < |order| ==> order[j] in s.db
    requires Distinct(order) && |order| > 0
    requires AutoStart(s.db[order[0]].fields) ==> CanSetup(lib, s.timers, order[0], s.db[order[0]].fields)
    ensures StartJobs(lib, s, order) == StartJobs(lib, ArmedFirst(s, order[0]), order[1..])
  {
    var id := order[0];
    if AutoStart(s.db[id].fields) {
      assert SetupJob(lib, s.timers, id, s.db[id].fields) == Ok(ArmedFirst(s, id).timers);
    }
  }

  /** When the walk reaches an auto-started job `setupJob` cannot arm, and
      every auto-started job before it could be armed, `startJobs` rejects
      with that job's error: the auto-started jobs listed before it are
      armed and none listed after it is. */
  lemma {:induction false} StartJobsFailsAtFirst(lib: Croner, s: State, order: seq<JobId>, i: nat)
    requires forall j :: 0 <= j < |order| ==> order[j] in s.db
    requires Distinct(order)
    requires i < |order| && AutoStart(s.db[order[i]].fields)
    requires !CanSetup(lib, s.timers, order[i], s.db[order[i]].fields)
    requires forall j :: 0 <= j < i && AutoStart(s.db[order[j]].fields) ==>
      CanSetup(lib, s.timers, order[j], s.db[order[j]].fields)
    ensures var r := StartJobs(lib, s, order);
      && r.error == Some(SetupError(lib, order[i], s.db[order[i]].fields))
      && (forall k :: k in r.state.timers <==> k in s.timers || (k in order[..i] && AutoStart(s.db[k].fields)))
      && (forall k :: k in order[..i] && AutoStart(s.db[k].fields) && k !in s.timers ==>
            r.state.timers[k] == Armed(k, s.db[k].fields))
    decreases i
  {
    if i > 0 {
      var s1 := ArmedFirst(s, order[0]);
      StartJobsPassesFirst(lib, s, order);
      FirstFailureInTail(lib, s, order, i);
      StartJobsFailsAtFirst(lib, s1, order[1..], i - 1);
      LiftFailure(lib, s, order, i, StartJobs(lib, s1, order[1..]).state.timers);
    } else {
      assert SetupJob(lib, s.timers, order[0], s.db[order[0]].fields).Err?;
    }
  }

  /** The first failure at `i` is the first failure at `i - 1` of the rest
      of the walk, once the first job is armed. */
  lemma FirstFailureInTail(lib: Croner, s: State, order: seq<JobId>, i: nat)
    requires forall j :: 0 <= j < |order| ==> order[j] in s.db
    requires Distinct(order)
    requires 0 < i < |order| && AutoStart(s.db[order[i]].fields)
    requires !CanSetup(lib, s.timers, order[i], s.db[order[i]].fields)
    requires forall j :: 0 <= j < i && AutoStart(s.db[order[j]].fields) ==>
      CanSetup(lib, s.timers, order[j], s.db[order[j]].fields)
    ensures var s1 := ArmedFirst(s, order[0]);
      var tail := order[1..];
      && (forall j :: 0 <= j < |tail| ==> tail[j] in s1.db)
      && Distinct(tail)
      && AutoStart(s1.db[tail[i - 1]].fields)
      && !CanSetup(lib, s1.timers, tail[i - 1], s1.db[tail[i - 1]].fields)
      && (forall j :: 0 <= j < i - 1 && AutoStart(s1.db[tail[j]].fields) ==>
            CanSetup(lib, s1.timers, tail[j], s1.db[tail[j]].fields))
  {
    var id := order[0];
    var s1 := ArmedFirst(s, id);
    var tail := order[1..];
    assert forall j :: 0 <= j < |tail| ==> tail[j] == order[j + 1] && order[j + 1] != id;
    assert forall k :: k != id ==> (k in s1.timers <==> k in s.timers);
    forall j | 0 <= j < i - 1 && AutoStart(s1.db[tail[j]].fields)
      ensures CanSetup(lib, s1.timers, tail[j], s1.db[tail[j]].fields)
    {
      assert CanSetup(lib, s.timers, order[j + 1], s.db[order[j + 1]].fields);
    }
  }

  /** What the rest of the walk arms, seen from the whole walk. */
  lemma LiftFailure(lib: Croner, s: State, order: seq<JobId>, i: nat, t: Registry)
    requires forall j :: 0 <= j < |order| ==> order[j] in s.db
    requires 0 < i < |order|
    requires var s1 := ArmedFirst(s, order[0]);
      && (forall k :: k in t <==> k in s1.timers || (k in order[1..][..i - 1] && AutoStart(s.db[k].fields)))
      && (forall k :: k in order[1..][..i - 1] && AutoStart(s.db[k].fields) && k !in s1.timers ==>
            t[k] == Armed(k, s.db[k].fields))
      && (forall k :: k in s1.timers ==> t[k] == s1.timers[k])
    ensures forall k :: k in t <==> k in s.timers || (k in order[..i] && AutoStart(s.db[k].fields))
    ensures forall k :: k in order[..i] && AutoStart(s.db[k].fields) && k !in s.timers ==>
      t[k] == Armed(k, s.db[k].fields)
  {
    assert order[..i] == [order[0]] + order[1..][..i - 1];
  }

  /** `startJobs` with each job's failure isolated: a job `setupJob` cannot
      arm is skipped and the walk goes on. Returns the new state and the ids
      that could not be armed. */
  function StartJobsIsolated(lib: Croner, s: State, order: seq<JobId>): (r: (State, seq<JobId>))
    requires forall i :: 0 <= i < |order| ==> order[i] in s.db
    requires Distinct(order)
    ensures r.0.db == s.db
    ensures forall k :: k in r.0.timers <==>
      k in s.timers || (k in order && AutoStart(s.db[k].fields) && Schedulable(lib, SetupOf(k, s.db[k].fields)))
    ensures forall k :: k in order && AutoStart(s.db[k].fields) && Schedulable(lib, SetupOf(k, s.db[k].fields)) && k !in s.timers ==>
      r.0.timers[k] == Armed(k, s.db[k].fields)
    ensures forall k :: k in s.timers ==> r.0.timers[k] == s.timers[k]
    ensures forall k :: k in r.1 <==>
      k in order && AutoStart(s.db[k].fields) && !CanSetup(lib, s.timers, k, s.db[k].fields)
    decreases |order|
  {
    if |order| == 0 then (s, [])
    else
      var id := order[0];
      var f := s.db[id].fields;
      assert forall i :: 0 <= i < |order| - 1 ==> order[1..][i] == order[i + 1];
      var rest := StartJobsIsolated(lib, s, order[1..]);
      assert id !in order[1..];
      if !AutoStart(f) then rest
      else match SetupJob(lib, rest.0.timers, id, f)
        case Err(_) => (rest.0, [id] + rest.1)
        case Ok(timers) => (rest.0.(timers := timers), rest.1)
  }

  // ---------------------------------------------------------------------
  // createJob, runJob, pauseJob, stopJob, deleteJob, updateJob
  // ---------------------------------------------------------------------

  /** `createJob`: writes the job (the store names it after the clock), then
      arms it when `autoStart` is truthy. The write happens first, so a
      rejected schedule leaves the job stored but unarmed. */
  function CreateJob(lib: Croner, s: State, f: Fields, nowMs: nat): (r: Step)
    ensures var id := Store.GenerateId(nowMs);
      && (id in s.db ==> r == Step(s, Some(StoreFailed(Store.Conflict(id)))))
      && (id !in s.db ==> r.state.db == s.db[id := Job(f, [])])
      && (id !in s.db && !AutoStart(f) ==> r.state.timers == s.timers && r.error.None?)
      && (id !in s.db && AutoStart(f) && Schedulable(lib, SetupOf(id, f)) && id !in s.timers ==>
            r.state.timers == s.timers[id := Armed(id, f)] && r.error.None?)
      && (id !in s.db && AutoStart(f) && !Schedulable(lib, SetupOf(id, f)) ==>
            r.state.timers == s.timers && r.error == Some(ScheduleRejected(id)))
      && (id !in s.db && AutoStart(f) && Schedulable(lib, SetupOf(id, f)) && id in s.timers ==>
            && r.state.timers == s.timers
            && (r.error.None? <==> !lib.takenNameThrows)
            && (r.error.Some? ==> r.error.value == NameTaken(id)))
  {
    match Store.CreateJob(s.db, Store.CreateData(None, None, f), nowMs)
    case Err(e) => Step(s, Some(StoreFailed(e)))
    case Ok((db, id)) =>
      if !AutoStart(f) then Step(State(db, s.timers), None)
      else match SetupJob(lib, s.timers, id, f)
        case Err(e) => Step(State(db, s.timers), Some(e))
        case Ok(timers) => Step(State(db, timers), None)
  }

  /** `runJob`: resumes a registered timer; otherwise arms the stored job
      afresh; an unknown id is a no-op. */
  function RunJob(lib: Croner, s: State, id: JobId): (r: Step)
    ensures r.state.db == s.db
    ensures id in s.timers ==> r == Step(s.(timers := Resume(s.timers, id)), None)
    ensures id !in s.timers && id !in s.db ==> r == Step(s, None)
    ensures id !in s.timers && id in s.db && Schedulable(lib, SetupOf(id, s.db[id].fields)) ==>
      r == Step(s.(timers := s.timers[id := Armed(id, s.db[id].fields)]), None)
    ensures id !in s.timers && id in s.db && !Schedulable(lib, SetupOf(id, s.db[id].fields)) ==>
      r == Step(s, Some(ScheduleRejected(id)))
  {
    if id in s.timers then Step(s.(timers := Resume(s.timers, id)), None)
    else match Store.GetJob(s.db, id)
      case None => Step(s, None)
      case Some(job) =>
        match SetupJob(lib, s.timers, id, job.fields)
        case Err(e) => Step(s, Some(e))
        case Ok(timers) => Step(s.(timers := timers), None)
  }

  /** `pauseJob`: pauses a registered timer; a no-op when none is registered. */
  function PauseJob(s: State, id: JobId): (r: State)
    ensures r.db == s.db
    ensures id !in s.timers ==> r == s
    ensures r.timers == Pause(s.timers, id)
  {
    s.(timers := Pause(s.timers, id))
  }

  /** `stopJob`: stops the timer, then stores `autoStart: false` so that the
      next start of the application does not arm the job again. */
  function StopJob(lib: Croner, s: State, id: JobId): (r: State)
    ensures r.timers == Stop(lib, s.timers, id)
    ensures r.db.Keys == s.db.Keys
    ensures id in s.db ==> r.db[id].fields.autoStart == Some(false)
    ensures id in s.db ==> r.db[id].executions == s.db[id].executions
    ensures id in s.db ==> r.db[id].fields == s.db[id].fields.(autoStart := Some(false))
    ensures forall k :: k in s.db && k != id ==> r.db[k] == s.db[k]
  {
    State(Store.UpdateJob(s.db, id, AutoStartOnly(false)), Stop(lib, s.timers, id))
  }

  /** `deleteJob`: stops the timer, then removes the document. */
  function DeleteJob(lib: Croner, s: State, id: JobId): (r: State)
    ensures r.timers == Stop(lib, s.timers, id)
    ensures r.db.Keys == s.db.Keys - {id}
    ensures forall k :: k in r.db ==> r.db[k] == s.db[k]
  {
    State(Store.DeleteJob(s.db, id), Stop(lib, s.timers, id))
  }

  /** `updateJob`: stops any timer first, merges the given fields into the
      stored job, and re-arms when the GIVEN `autoStart` is truthy, with the
      GIVEN fields rather than the merged record. Nothing checks that the id
      is stored, so an unknown id can still be armed. When the library keeps
      the stopped timer registered, its name is still taken: re-arming then
      throws, or registers a timer that `find` never reaches. */
  function UpdateJob(lib: Croner, s: State, id: JobId, f: Fields): (r: Step)
    ensures r.state.db == Store.UpdateJob(s.db, id, f)
    ensures !AutoStart(f) ==> r == Step(State(r.state.db, Stop(lib, s.timers, id)), None)
    ensures AutoStart(f) && Schedulable(lib, SetupOf(id, f)) && (lib.stopUnregisters || id !in s.timers) ==>
      r == Step(State(r.state.db, Stop(lib, s.timers, id)[id := Armed(id, f)]), None)
    ensures AutoStart(f) && Schedulable(lib, SetupOf(id, f)) && !lib.stopUnregisters && id in s.timers ==>
      && r.state.timers == Stop(lib, s.timers, id)
      && r.error == (if lib.takenNameThrows then Some(NameTaken(id)) else None)
    ensures AutoStart(f) && !Schedulable(lib, SetupOf(id, f)) ==>
      r == Step(State(r.state.db, Stop(lib, s.timers, id)), Some(ScheduleRejected(id)))
  {
    var timers := Stop(lib, s.timers, id);
    var db := Store.UpdateJob(s.db, id, f);
    if !AutoStart(f) then Step(State(db, timers), None)
    else match SetupJob(lib, timers, id, f)
      case Err(e) => Step(State(db, timers), Some(e))
      case Ok(timers') => Step(State(db, timers'), None)
  }

  // ---------------------------------------------------------------------
  // A timer's fire callback
  // ---------------------------------------------------------------------

  /** The library starts the job's callback. */
  function BeginFire(s: State, id: JobId): (r: State)
    ensures r.db == s.db
    ensures r.timers == Scheduler.BeginFire(s.timers, id)
  {
    s.(timers := Scheduler.BeginFire(s.timers, id))
  }

  /** The callback settles: the command's outcome, stamped with the two clock
      readings, is appended to the job's history and the timer is no longer
      busy. A job deleted while its command ran is a rejected write that
      changes nothing in the store. */
  function CompleteFire(s: State, id: JobId, result: Outcome, startedAt: int, finishedAt: int): (r: Step)
    ensures r.state.timers == EndFire(s.timers, id)
    ensures id !in s.db ==> r.state.db == s.db && r.error == Some(StoreFailed(Store.Missing(id)))
    ensures id in s.db ==> r.error.None? && r.state.db.Keys == s.db.Keys
    ensures id in s.db ==>
      r.state.db[id] == Job(s.db[id].fields, s.db[id].executions + [Record(result, startedAt, finishedAt)])
    ensures forall k :: k in s.db && k != id ==> r.state.db[k] == s.db[k]
  {
    var timers := EndFire(s.timers, id);
    match Store.CreateExecution(s.db, id, Record(result, startedAt, finishedAt))
    case Err(e) => Step(State(s.db, timers), Some(StoreFailed(e)))
    case Ok(db) => Step(State(db, timers), None)
  }

  /** The callback as jobs.js:49 writes it: it calls `createJobExecution`,
      a method the store does not have (db.js:16 calls it `createExecution`),
      so the call throws and the run is never recorded. */
  function CompleteFireAsWritten(s: State, id: JobId, result: Outcome, startedAt: int, finishedAt: int): (r: Step)
    ensures r.state.timers == EndFire(s.timers, id)
    ensures r.state.db == s.db
    ensures r.error == Some(NoSuchMethod("createJobExecution"))
  {
    var timers := EndFire(s.timers, id);
    if "createJobExecution" in Store.Methods then
      CompleteFire(s, id, result, startedAt, finishedAt)
    else Step(State(s.db, timers), Some(NoSuchMethod("createJobExecution")))
  }

  // ---------------------------------------------------------------------
  // The derived view: _fillJobWithScheduleData, listJobs, getJob
  // ---------------------------------------------------------------------

  datatype Status = Stopped | Paused | Running | Active

  datatype LastStatus = Never | Success | Failed

  /** A stored job with the three computed fields beside it. */
  datatype JobView = JobView(
    id: JobId,
    job: Job,
    status: Status,
    lastExecutionStatus: LastStatus,
    nextExecution: Option<int>)

  /** The status a job's timer gives it. */
  function StatusOf(timers: Registry, id: JobId): (r: Status)
    ensures r == Stopped <==> id !in timers || timers[id].state.Killed?
    ensures r == Paused <==> id in timers && timers[id].state.Live? && !timers[id].state.running
    ensures r == Running <==> id in timers && timers[id].state == Live(true, true)
    ensures r == Active <==> id in timers && timers[id].state == Live(true, false)
  {
    match Find(timers, id)
    case None => Stopped
    case Some(t) =>
      match t.state
      case Killed => Stopped
      case Live(running, busy) =>
        if !running then Paused else if busy then Running else Active
  }

  /** The status of the most recent execution. */
  function LastStatusOf(executions: seq<Execution>): (r: LastStatus)
    ensures r == Never <==> |executions| == 0
    ensures r == Failed <==> |executions| > 0 && executions[|executions| - 1].failed
    ensures r == Success <==> |executions| > 0 && !executions[|executions| - 1].failed
  {
    if |executions| == 0 then Never
    else if executions[|executions| - 1].failed then Failed
    else Success
  }

  /** `_fillJobWithScheduleData`: the stored job unchanged, plus its status,
      the status of its last execution, and the next fire time, which only
      an active or running timer has. `nowMs` is the instant of the read. */
  function Fill(lib: Croner, timers: Registry, id: JobId, job: Job, nowMs: int): (v: JobView)
    ensures v.id == id && v.job == job
    ensures v.status == StatusOf(timers, id)
    ensures v.lastExecutionStatus == LastStatusOf(job.executions)
    ensures v.status in {Stopped, Paused} ==> v.nextExecution.None?
    ensures v.status in {Running, Active} ==> v.nextExecution == lib.nextRun(timers[id].setup, nowMs)
  {
    var status := StatusOf(timers, id);
    var next := if status == Stopped || status == Paused then None else lib.nextRun(timers[id].setup, nowMs);
    JobView(id, job, status, LastStatusOf(job.executions), next)
  }

  /** `getJob`: the view of the stored job, or null. */
  function GetJob(lib: Croner, s: State, id: JobId, nowMs: int): (r: Option<JobView>)
    ensures r.Some? <==> id in s.db
    ensures r.Some? ==> r.value == Fill(lib, s.timers, id, s.db[id], nowMs)
  {
    match Store.GetJob(s.db, id)
    case None => None
    case Some(job) => Some(Fill(lib, s.timers, id, job, nowMs))
  }

  /** `listJobs`: the view of every job, in listing order. */
  function ListJobs(lib: Croner, s: State, order: seq<JobId>, nowMs: int): (r: seq<JobView>)
    requires forall i :: 0 <= i < |order| ==> order[i] in s.db
    ensures |r| == |order|
    ensures forall i :: 0 <= i < |order| ==> r[i] == Fill(lib, s.timers, order[i], s.db[order[i]], nowMs)
  {
    seq(|order|, i requires 0 <= i < |order| => Fill(lib, s.timers, order[i], s.db[order[i]], nowMs))
  }
}
