# crontaber job scheduling core in Dafny

crontaber is a desktop app that runs shell commands ("jobs") on cron schedules. This project models its core as a pure transition system over two immutable maps:

- the **job store**: job id → job document, with the user's fields and an append-only `executions` history;
- the **timer registry**: job id → timer. A timer is either killed, or live with a `running` flag (false while paused) and a `busy` flag (true while a fire's callback runs).

Every service call (`startJobs`, `createJob`, `runJob`, `pauseJob`, `stopJob`, `deleteJob`, `updateJob`) and the two halves of a timer's fire are functions from the pair to a new pair. A call that throws is a `Step` carrying the state it left behind and the error. The derived read `_fillJobWithScheduleData` is the function `Jobs.Fill`. The cron help message of the renderer (nickname table, then validate-then-expand) is modelled too.

Modules:

- `Values`: optional values for `undefined`, results for exceptions, and JavaScript truthiness.
- `Decimal`: decimal rendering of a timestamp and its inverse, used for generated ids.
- `Records`: job fields, executions and job documents.
- `Store`: `src/main/libs/db.js` and the store methods the service assumes.
- `Scheduler`: the registry the service drives through `croner`.
- `Jobs`: `src/main/libs/jobs.js`.
- `CronHelp`: `src/renderer/src/utils/cron.js`.
- `JobsProperties`: lemmas relating several calls.

The `croner` library is not modelled. A `Croner` value is passed to every operation. It says:

- which pattern and timezone pairs construct a timer;
- the message a rejected pattern throws;
- the next fire time of a live timer;
- whether `stop()` drops the timer from `scheduledJobs` or leaves it registered as stopped. This behaviour differs between library versions, and the read `isStopped()` allows for the second;
- whether constructing a timer under a name already registered throws, or registers the new timer behind the old one.

The description text from `cronstrue` is a function parameter. The command executor is an abstract `Outcome` with a `failed` flag. Clock readings are parameters.

Assumptions about parts the source does not define:

- The store's `getJobs`, `getJob`, `updateJob` and `deleteJob` are not in `db.js`. They are plain map operations here.
- `updateJob` merges by presence. A defined field overwrites the stored one, even when falsy. An `undefined` field keeps the stored value. Updating an unknown id changes nothing.
- `getJobs` yields each document once. Each record carries its id. The scan order is a parameter.
- Writing a document whose id already exists is a conflict, as a document store's `put` without a revision is.
- The registry maps each job id to the timer `find` returns for it, which is the first one registered under that name. Arming under a free name registers the fresh timer. Arming under a taken name either throws or leaves that first timer where `find` sees it, as the `Croner` parameter says.
- Constructing a timer with an `undefined` pattern throws.
- `resume()` and `pause()` on a stopped timer leave it stopped.

## Model

| member | source | states |
|---|---|---|
| Store.GenerateId | src/main/libs/db.js:22-24 | the id is the decimal rendering of the millisecond timestamp: all digits, and it parses back to the timestamp |
| Store.CreateJob | src/main/libs/db.js:8-14 | the stored document holds every supplied field; `executions` defaults to `[]` and `_id` to the generated id, but a defined `executions` or `_id` in the data wins (the spread comes last); an existing id is a conflict that writes nothing; other documents are untouched |
| Store.CreateExecution | src/main/libs/db.js:16-20 | exactly one entry is appended at the end, earlier entries keep their order and values, the job's other fields and every other job are unchanged; a missing job is an error |
| Store.AppendOnly | src/main/libs/db.js:16-20 | successive appends leave the history equal to the old history followed by the new entries, in order |
| Store.SameMillisecondCollides | src/main/libs/db.js:22-24 | two creates in the same millisecond get the same id, so the second is a conflict |
| Store.DistinctMillisecondsDistinctIds | src/main/libs/db.js:22-24 | generated ids are equal exactly when the timestamps are equal |
| Store.UpdateJob | src/main/libs/jobs.js:121-129 | presence merge into an existing document, executions untouched, other documents untouched, unknown id left absent |
| Store.UpdateKeepsExecutions | src/main/libs/jobs.js:121-129 | no field update changes any job's execution history |
| Store.DeleteJob | src/main/libs/jobs.js:110-113 | exactly the id is removed, every other document is kept |
| Records.Merge | src/main/libs/jobs.js:121-129 | each field the patch defines replaces the stored one, each field it leaves undefined keeps the stored value |
| Records.MergeIdempotent | src/main/libs/jobs.js:121-129 | applying the same patch twice equals applying it once |
| Records.MergeNothing | src/main/libs/jobs.js:121-129 | an update whose fields are all `undefined` leaves the stored fields as they were |
| Records.Record | src/main/libs/jobs.js:49-53 | an execution record is the executor's outcome plus the start and finish timestamps |
| Decimal.ParseRender | src/main/libs/db.js:23 | parsing the rendered timestamp gives the timestamp back |
| Decimal.Render | src/main/libs/db.js:23 | the rendering is non-empty, all digits, with no leading zero |
| Values.Lookup | src/main/libs/jobs.js:21-23 | the timer registered under the job id when there is one, none otherwise; the store's `getJob` is the same lookup on documents |
| Scheduler.Arm | src/main/libs/jobs.js:36-55 | constructing a timer throws exactly when the library rejects the pattern, or the name is taken and the library refuses taken names, with the pattern checked first; otherwise a free name gets a fresh, live, idle timer with the given setup, a taken name keeps the timer `find` already returns, and other timers are untouched |
| Scheduler.Stop | src/main/libs/jobs.js:145-151 | the timer is killed and either dropped or kept as killed, per the library; other timers are untouched |
| Scheduler.Pause | src/main/libs/jobs.js:97-103 | a live timer stops counting down and keeps its setup and busy flag; a killed one stays killed |
| Scheduler.Resume | src/main/libs/jobs.js:83-87 | a live timer counts down again with its setup unchanged; a killed one stays killed |
| Scheduler.BeginFire | src/main/libs/jobs.js:43-54 | only a live, counting, idle timer fires, and it becomes busy |
| Scheduler.EndFire | src/main/libs/jobs.js:43-54 | when the callback settles a live timer is idle again; a killed one is untouched |
| Scheduler.PauseResume | src/main/libs/jobs.js:97-103 | pausing then resuming a counting timer restores it exactly |
| Scheduler.StopIdempotent | src/main/libs/jobs.js:145-151 | stopping twice equals stopping once |
| Scheduler.StopLeavesNoLiveTimer | src/main/libs/jobs.js:145-151 | after a stop no live timer remains under the id, whichever library behaviour holds |
| Jobs.SetupOf | src/main/libs/jobs.js:35-47 | the timer's setup is the job's id, command and frequency, with falsy working directory, timezone and run cap turned into undefined |
| Jobs.SetupJob | src/main/libs/jobs.js:35-56 | arming succeeds exactly when the schedule is accepted and the name is free or may be taken; a free name then gets the fresh timer; a rejected pattern and a refused taken name are told apart |
| Jobs.StartJobs | src/main/libs/jobs.js:25-33 | the store is unchanged and existing timers are kept; the call succeeds exactly when every auto-started job in listing order can be armed, and then arms exactly those jobs; a failure names an auto-started job that could not be armed |
| Jobs.StartJobsFailsAtFirst | src/main/libs/jobs.js:28-32 | when the first auto-started job that cannot be armed is at position `i`, the call rejects with its error, the auto-started jobs before it are armed, and none after it is |
| Jobs.StartJobsIsolated | src/main/libs/jobs.js:25-33 | with each failure isolated, exactly the auto-started jobs with accepted schedules are armed or keep their timer, and exactly those that could not be armed are reported |
| Jobs.CreateJob | src/main/libs/jobs.js:58-81 | the job is stored under the generated id with its fields and no executions; a timer is armed under that id exactly when `autoStart` is truthy, the schedule accepted and no timer holds the name; a rejected schedule leaves the job stored but unarmed; a timer already holding the name stays and the call throws when the library refuses taken names; an id clash in the store changes nothing |
| Jobs.RunJob | src/main/libs/jobs.js:83-95 | a registered timer is resumed; otherwise a stored job is armed from its stored record; an unknown id is a no-op; the store is never changed |
| Jobs.PauseJob | src/main/libs/jobs.js:97-103 | pauses the registered timer, no-op without one, store unchanged |
| Jobs.StopJob | src/main/libs/jobs.js:105-108 | stops the timer and stores `autoStart` false, keeping the job's other fields, its executions and every other job |
| Jobs.DeleteJob | src/main/libs/jobs.js:110-113 | stops the timer and removes exactly that document |
| Jobs.UpdateJob | src/main/libs/jobs.js:115-143 | always stops the existing timer first and merges the given fields; when the given `autoStart` is truthy and the stop freed the name, re-arms with the given fields; when the stopped timer keeps the name, that killed timer stays and the call throws exactly when the library refuses taken names |
| Jobs.BeginFire | src/main/libs/jobs.js:43-44 | a fire leaves the store alone and marks the timer busy |
| Jobs.CompleteFire | src/main/libs/jobs.js:43-54 | the outcome, stamped with both clock readings, is appended to the job's history and the timer is idle again; a job deleted meanwhile is an error that leaves the store alone |
| Jobs.CompleteFireAsWritten | src/main/libs/jobs.js:49 | the callback as written clears the busy flag, leaves the store unchanged, and throws because it calls a store method that does not exist |
| Jobs.StatusOf | src/main/libs/jobs.js:166-174 | the status is `stopped` exactly when no timer is registered or it is killed, `paused` exactly when live and not running, `running` exactly when live, running and busy, `active` exactly when live, running and idle |
| Jobs.LastStatusOf | src/main/libs/jobs.js:175-180 | `never` exactly for an empty history, otherwise `failed` or `success` by the last execution's flag |
| Jobs.Fill | src/main/libs/jobs.js:165-183 | the view keeps the stored job unchanged, carries status and last execution status, and has no next execution when stopped or paused |
| Jobs.GetJob | src/main/libs/jobs.js:159-163 | the view of a stored job, null for an unknown id |
| Jobs.ListJobs | src/main/libs/jobs.js:153-157 | one view per listed job, in listing order |
| JobsProperties.ConsistencyPreserved | src/main/libs/jobs.js:58-151 | every call and fire step keeps each timer named after its key and every live timer belonging to a stored job, except an update that arms an unknown id |
| JobsProperties.StartJobsPreservesConsistency | src/main/libs/jobs.js:25-33 | `startJobs` keeps the same invariant |
| JobsProperties.UpdateOfUnknownIdArmsOrphan | src/main/libs/jobs.js:115-143 | updating an unknown id with a truthy `autoStart`, when its name is free after the stop, arms an active timer while reading the job gives null |
| JobsProperties.StartJobsArmsExactlyAutoStart | src/main/libs/jobs.js:25-33 | at start-up with accepted schedules, exactly the jobs with truthy `autoStart` become active and every other job is stopped |
| JobsProperties.CreateThenGet | src/main/libs/jobs.js:58-81 | a created job reads back with exactly the given fields, no executions, status `never` for its last execution, and is active exactly when auto-started with an accepted schedule, stopped otherwise |
| JobsProperties.PauseThenRun | src/main/libs/jobs.js:83-103 | pausing an active job makes it paused with no next execution; running it again restores the previous state exactly |
| JobsProperties.PauseWithoutTimerIsNoop | src/main/libs/jobs.js:97-103 | pausing a job with no timer changes nothing |
| JobsProperties.StopMakesStopped | src/main/libs/jobs.js:105-108 | after a stop the status is `stopped` and the stored `autoStart` is false |
| JobsProperties.StopIsIdempotent | src/main/libs/jobs.js:105-108 | stopping twice leaves the same store and registry as stopping once |
| JobsProperties.RunAfterStop | src/main/libs/jobs.js:83-108 | after a stop, run re-arms the job when the library drops stopped timers, and is a no-op that leaves it stopped when the library keeps them |
| JobsProperties.DeleteRemovesEverywhere | src/main/libs/jobs.js:110-113 | a deleted job reads as null and has status `stopped`, whatever its timer's state was |
| JobsProperties.UpdateKeepsHistory | src/main/libs/jobs.js:115-129 | an update never changes the job's execution history |
| JobsProperties.PartialUpdateArmsFromArguments | src/main/libs/jobs.js:131-141 | an auto-started update that omits the frequency keeps the stored frequency but arms from the arguments, so arming is rejected and the job is left stopped |
| JobsProperties.UpdateRearmsWithNewSchedule | src/main/libs/jobs.js:131-141 | when the stop frees the name, an update with a truthy `autoStart` and an accepted schedule succeeds and leaves the job active with a timer armed from the new fields |
| JobsProperties.UpdateOfKeptTimerStaysStopped | src/main/libs/jobs.js:115-143 | when the library keeps stopped timers registered, updating a job that had a timer leaves it stopped with its old schedule, and throws for the taken name exactly when the library refuses taken names |
| JobsProperties.FireRecordsOutcome | src/main/libs/jobs.js:43-54 | an active job is running during a fire and active after it, with exactly one more execution whose flag decides the last execution status |
| JobsProperties.FireAsWrittenRecordsNothing | src/main/libs/jobs.js:49 | as written, a completed fire leaves the store unchanged and throws for the missing method |
| JobsProperties.LastStatusOfAppend | src/main/libs/jobs.js:175-180 | after appending an execution the last execution status is that execution's |
| JobsProperties.LastStatusOnlyLastMatters | src/main/libs/jobs.js:175-180 | histories whose last executions have the same flag have the same last execution status |
| JobsProperties.ListJobsShowsStore | src/main/libs/jobs.js:153-157 | listing shows every stored job, each with its stored record unchanged, and a next execution only when active or running |
| JobsProperties.StartJobsStopsAtFirstRejection | src/main/libs/jobs.js:28-32 | as written, a rejected schedule listed first keeps a later valid auto-started job from being armed, while the opposite order arms it |
| JobsProperties.StartJobsIsolatedOrderFree | src/main/libs/jobs.js:25-33 | with failures isolated, the timers armed do not depend on listing order |
| JobsProperties.StartJobsIsolatedArmsValidJob | src/main/libs/jobs.js:25-33 | with failures isolated, the valid job is armed and active even after a rejected one |
| CronHelp.Expand | src/renderer/src/utils/cron.js:17-19 | a nickname key becomes its table entry; any other expression is returned as is |
| CronHelp.HelpMessage | src/renderer/src/utils/cron.js:13-28 | a rejected expression yields the library's message; an accepted one is expanded and then described |
| CronHelp.YearlyIsAnnually | src/renderer/src/utils/cron.js:5-6 | `@yearly` and `@annually` both expand to `0 0 1 1 *` |
| CronHelp.NicknamesHaveFiveFields | src/renderer/src/utils/cron.js:4-11 | every nickname expands to five non-empty space-separated fields |
| CronHelp.ExpandRewritesOnlyNicknames | src/renderer/src/utils/cron.js:17-19 | an expression is rewritten exactly when it is one of the six keys |
| CronHelp.ExpandIdempotent | src/renderer/src/utils/cron.js:4-19 | no expansion is itself a nickname, so expanding twice equals expanding once |
| CronHelp.RejectedIsNeverDescribed | src/renderer/src/utils/cron.js:14-27 | for a rejected expression the description function plays no part |

## Left out

- Cron parsing, timezone handling and next-fire arithmetic belong to the `croner` library. Acceptance, the thrown message and `nextRun` are fields of the `Croner` parameter.
- A timer's maximum run count is recorded in its setup. Self-retirement after that many fires is library behaviour and is not modelled.
- `isRunning()` also depends on the library finding a next run. The model's `running` flag means only "not paused".
- Scheduler.Arm: the registry keeps, per job id, only the timer `find` returns. When the library lets a second timer register behind a taken name, that timer is out of the service's reach but still fires and runs the command. Its fires are not modelled.
- Overlapping fires of one job are not modelled: only an idle timer fires. Neither are the interleavings of asynchronous calls. Both are concurrency.
- The command executor (`src/main/utils/process.js`) spawns a process. Only its result is modelled, as an `Outcome` with a `failed` flag and opaque output.
- PouchDB persistence, document revisions and the data directory (`src/main/services/db.js`) are I/O.
- Timestamps are parameters taken from the wall clock. Because that clock is not monotonic, nothing relates `finishedAt` to `startedAt`.
- The IPC handlers of `src/main/index.js` are transport. So are their result envelopes, and the `job:create` handler dropping `maxExecutions`. The preload bridge is transport too.
- All React UI is left out: polling, search, forms and the `Infinity` coercion of the run cap. So is the description text `cronstrue` produces.
- Store.CreateJob: a `_id` or `executions` key present in the data with the value `undefined` is treated as absent, so the default is kept. The spread would copy the `undefined`. The write would then lack an id, or a later append would find no history. The service never passes these keys.
- `maxExecutions` is an integer. JavaScript's `NaN` and `Infinity` are not modelled.
- The nickname lookup indexes a plain object, so inherited names such as `toString` are truthy there too. The table here holds only the six own keys. Such names never reach the lookup, because constructing a timer from them fails first.

## Findings

| source | as written | input that shows it | evidently intended | confidence | as-written member | corrected member |
|---|---|---|---|---|---|---|
| src/main/libs/jobs.js:49 | the fire callback calls `createJobExecution`, but the store defines that method as `createExecution` (src/main/libs/db.js:16), so the call throws after the command has run | any fire of any job | the outcome is appended through `createExecution` | high; not executed | Jobs.CompleteFireAsWritten | Jobs.CompleteFire |
| src/main/libs/jobs.js:28-32 | `forEach` calls `setupJob` with no catch, so the first job whose schedule the library rejects ends start-up, and later auto-started jobs are never armed (`Jobs.StartJobsFailsAtFirst`). Such a job can be stored, because `createJob` writes before it arms. | auto-started job "1" with frequency `bogus`, listed before auto-started job "2" with `* * * * *`: "2" is not armed | each auto-started job is armed or skipped on its own | medium; not executed | Jobs.StartJobs | Jobs.StartJobsIsolated |
