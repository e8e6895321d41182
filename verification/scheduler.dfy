/** The timer registry the service drives through the `croner` library
    (`croner.Cron(...)`, `croner.scheduledJobs`, and each timer's `pause`,
    `resume`, `stop`, `isStopped`, `isRunning`, `isBusy`, `nextRun`).

    The library itself is not modelled: which patterns and timezones it
    accepts, the message it throws, and the next fire time it computes are the
    fields of a `Croner` value that every operation takes as a parameter, as
    are the two registry behaviours that differ between library versions:
    whether `stop` removes the timer from the registry, and whether a new
    timer whose name is already registered throws or is registered behind
    the earlier one. */
module Scheduler {
  import opened Values
  import opened Records

  /** What a timer is armed with: `setupJob`'s arguments after its
      `x ? x : undefined` normalisation. The timer's name is the job id. */
  datatype Setup = Setup(
    id: JobId,
    command: Option<string>,
    frequency: Option<string>,
    workDirectory: Option<string>,
    maxRuns: Option<int>,
    timezone: Option<string>)

  /** A timer is killed (`isStopped()`), or live: `running` is false while it
      is paused and `busy` is true while a fire's callback is in progress. */
  datatype TimerState = Killed | Live(running: bool, busy: bool)

  datatype Timer = Timer(setup: Setup, state: TimerState)

  /** `croner.scheduledJobs`, keyed by timer name: one timer per job id. */
  type Registry = map<JobId, Timer>

  /** The library's behaviour, left abstract. */
  datatype Croner = Croner(
    accepts: (string, Option<string>) -> bool,   // does `Cron(pattern, { timezone })` construct?
    rejection: string -> string,                 // the message thrown for a rejected pattern
    nextRun: (Setup, int) -> Option<int>,        // `nextRun()` of a live timer at a given instant
    stopUnregisters: bool,                       // does `stop()` remove the timer from the registry?
    takenNameThrows: bool)                       // does `Cron(...)` throw on a name already registered?

  /** Why `Cron(...)` threw: the pattern is checked before the name. */
  datatype ArmError = PatternRejected(id: JobId) | NameRegistered(id: JobId)

  /** `Cron(frequency, ...)` constructs without throwing: the pattern must be
      a string the library accepts in the given timezone. */
  predicate Schedulable(lib: Croner, setup: Setup)
  {
    setup.frequency.Some? && lib.accepts(setup.frequency.value, setup.timezone)
  }

  /** `Cron(frequency, { name: id, ... })` constructs without throwing in
      this registry: the pattern is accepted, and the name is free or the
      library does not mind a taken one. */
  predicate Constructs(lib: Croner, reg: Registry, setup: Setup)
  {
    Schedulable(lib, setup) && (setup.id !in reg || !lib.takenNameThrows)
  }

  /** A freshly constructed timer: live, not paused, not busy. */
  function Fresh(setup: Setup): Timer
  {
    Timer(setup, Live(true, false))
  }

  /** `scheduledJobs.find(j => j.name === id)`. */
  function Find(reg: Registry, id: JobId): Option<Timer>
  {
    Lookup(reg, id)
  }

  /** `croner.Cron(frequency, { name: id, maxRuns, timezone }, callback)`:
      throws when the pattern is rejected, or when the name is taken and the
      library refuses taken names. Otherwise the new timer is registered. A
      name that is free gets the fresh timer; a taken one keeps the timer
      registered first, which is the one `find` returns, so the new timer is
      out of the service's reach. */
  function Arm(lib: Croner, reg: Registry, setup: Setup): (r: Result<Registry, ArmError>)
    ensures r.Err? <==> !Constructs(lib, reg, setup)
    ensures r.Err? && !Schedulable(lib, setup) ==> r.error == PatternRejected(setup.id)
    ensures r.Err? && Schedulable(lib, setup) ==> r.error == NameRegistered(setup.id)
    ensures r.Ok? ==> r.value.Keys == reg.Keys + {setup.id}
    ensures r.Ok? && setup.id !in reg ==> r.value[setup.id] == Timer(setup, Live(true, false))
    ensures r.Ok? && setup.id in reg ==> r.value == reg
    ensures r.Ok? ==> forall k :: k in reg && k != setup.id ==> r.value[k] == reg[k]
  {
    if !Schedulable(lib, setup) then Err(PatternRejected(setup.id))
    else if setup.id !in reg then Ok(reg[setup.id := Fresh(setup)])
    else if lib.takenNameThrows then Err(NameRegistered(setup.id))
    else Ok(reg)
  }

  /** `find(id)?.stop()`: kills the timer, which the library either drops
      from the registry or leaves there as killed. */
  function Stop(lib: Croner, reg: Registry, id: JobId): (r: Registry)
    ensures r.Keys <= reg.Keys
    ensures id in r ==> r[id] == Timer(reg[id].setup, Killed)
    ensures id in reg && !lib.stopUnregisters ==> id in r
    ensures lib.stopUnregisters ==> id !in r
    ensures forall k :: k in reg && k != id ==> k in r && r[k] == reg[k]
  {
    if id !in reg then reg
    else if lib.stopUnregisters then reg - {id}
    else reg[id := reg[id].(state := Killed)]
  }

  /** `find(id)?.pause()`: a live timer stops counting down; a killed one stays killed. */
  function Pause(reg: Registry, id: JobId): (r: Registry)
    ensures r.Keys == reg.Keys
    ensures id in reg && reg[id].state.Live? ==>
      r[id] == Timer(reg[id].setup, Live(false, reg[id].state.busy))
    ensures id in reg && reg[id].state.Killed? ==> r[id] == reg[id]
    ensures forall k :: k in reg && k != id ==> r[k] == reg[k]
  {
    if id in reg && reg[id].state.Live? then
      reg[id := reg[id].(state := reg[id].state.(running := false))]
    else reg
  }

  /** `resume()` on a registered timer: a live timer counts down again; a
      killed one stays killed, since resuming only clears the pause. */
  function Resume(reg: Registry, id: JobId): (r: Registry)
    ensures r.Keys == reg.Keys
    ensures id in reg && reg[id].state.Live? ==>
      r[id] == Timer(reg[id].setup, Live(true, reg[id].state.busy))
    ensures id in reg && reg[id].state.Killed? ==> r[id] == reg[id]
    ensures forall k :: k in reg && k != id ==> r[k] == reg[k]
  {
    if id in reg && reg[id].state.Live? then
      reg[id := reg[id].(state := reg[id].state.(running := true))]
    else reg
  }

  /** A due, live, counting timer starts its callback and becomes busy;
      in any other state nothing fires. */
  function BeginFire(reg: Registry, id: JobId): (r: Registry)
    ensures r.Keys == reg.Keys
    ensures id in reg && reg[id].state == Live(true, false) ==>
      r[id] == Timer(reg[id].setup, Live(true, true))
    ensures !(id in reg && reg[id].state == Live(true, false)) ==> r == reg
    ensures forall k :: k in reg && k != id ==> r[k] == reg[k]
  {
    if id in reg && reg[id].state == Live(true, false) then
      reg[id := reg[id].(state := Live(true, true))]
    else reg
  }

  /** The callback has settled (whether or not it threw): a live timer is no
      longer busy; a killed or removed one stays as it is. */
  function EndFire(reg: Registry, id: JobId): (r: Registry)
    ensures r.Keys == reg.Keys
    ensures id in reg && reg[id].state.Live? ==>
      r[id] == Timer(reg[id].setup, Live(reg[id].state.running, false))
    ensures id in reg && reg[id].state.Killed? ==> r[id] == reg[id]
    ensures forall k :: k in reg && k != id ==> r[k] == reg[k]
  {
    if id in reg && reg[id].state.Live? then
      reg[id := reg[id].(state := reg[id].state.(busy := false))]
    else reg
  }

  /** Pausing then resuming an idle or busy live timer restores it exactly:
      the schedule it was armed with is kept. */
  lemma PauseResume(reg: Registry, id: JobId)
    requires id in reg && reg[id].state.Live? && reg[id].state.running
    ensures Resume(Pause(reg, id), id) == reg
  {
  }

  /** Stopping twice is stopping once. */
  lemma StopIdempotent(lib: Croner, reg: Registry, id: JobId)
    ensures Stop(lib, Stop(lib, reg, id), id) == Stop(lib, reg, id)
  {
  }

  /** After a stop no live timer is left under the id, whichever registry
      behaviour the library has. */
  lemma StopLeavesNoLiveTimer(lib: Croner, reg: Registry, id: JobId)
    ensures var r := Stop(lib, reg, id); id !in r || r[id].state.Killed?
  {
  }
}
