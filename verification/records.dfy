/** The persisted entities: a job's user-supplied fields, the executions
    recorded for it, and the job document holding both. */
module Records {
  import opened Values

  type JobId = string

  /** The seven fields a caller supplies for a job. Each may be absent:
      `undefined` values vanish when the document is written. */
  datatype Fields = Fields(
    name: Option<string>,
    command: Option<string>,
    frequency: Option<string>,
    maxExecutions: Option<int>,
    workDirectory: Option<string>,
    timezone: Option<string>,
    autoStart: Option<bool>)

  /** A patch that supplies nothing. */
  const NoFields := Fields(None, None, None, None, None, None, None)

  /** A patch that supplies only `autoStart`. */
  function AutoStartOnly(b: bool): Fields
  {
    NoFields.(autoStart := Some(b))
  }

  /** The captured output of a command, opaque to the model. */
  datatype Output = Output(stdout: string, stderr: string)

  /** What the command executor hands back: it never throws, it reports. */
  datatype Outcome = Outcome(failed: bool, output: Output)

  /** One recorded run: the executor's outcome spread, then the two timestamps. */
  datatype Execution = Execution(failed: bool, output: Output, startedAt: int, finishedAt: int)

  /** A stored job document. */
  datatype Job = Job(fields: Fields, executions: seq<Execution>)

  /** The record written after a run: `{ ...result, startedAt, finishedAt }`. */
  function Record(result: Outcome, startedAt: int, finishedAt: int): (e: Execution)
    ensures e.failed == result.failed && e.output == result.output
    ensures e.startedAt == startedAt && e.finishedAt == finishedAt
  {
    Execution(result.failed, result.output, startedAt, finishedAt)
  }

  function Pick<T>(stored: Option<T>, patch: Option<T>): Option<T>
  {
    if patch.Some? then patch else stored
  }

  /** Presence-based merge: every field the patch defines replaces the stored
      one, every field it leaves `undefined` keeps the stored value. */
  function Merge(stored: Fields, patch: Fields): (r: Fields)
    ensures patch.name.Some? ==> r.name == patch.name
    ensures patch.name.None? ==> r.name == stored.name
    ensures patch.command.Some? ==> r.command == patch.command
    ensures patch.command.None? ==> r.command == stored.command
    ensures patch.frequency.Some? ==> r.frequency == patch.frequency
    ensures patch.frequency.None? ==> r.frequency == stored.frequency
    ensures patch.maxExecutions.Some? ==> r.maxExecutions == patch.maxExecutions
    ensures patch.maxExecutions.None? ==> r.maxExecutions == stored.maxExecutions
    ensures patch.workDirectory.Some? ==> r.workDirectory == patch.workDirectory
    ensures patch.workDirectory.None? ==> r.workDirectory == stored.workDirectory
    ensures patch.timezone.Some? ==> r.timezone == patch.timezone
    ensures patch.timezone.None? ==> r.timezone == stored.timezone
    ensures patch.autoStart.Some? ==> r.autoStart == patch.autoStart
    ensures patch.autoStart.None? ==> r.autoStart == stored.autoStart
  {
    Fields(
      Pick(stored.name, patch.name),
      Pick(stored.command, patch.command),
      Pick(stored.frequency, patch.frequency),
      Pick(stored.maxExecutions, patch.maxExecutions),
      Pick(stored.workDirectory, patch.workDirectory),
      Pick(stored.timezone, patch.timezone),
      Pick(stored.autoStart, patch.autoStart))
  }

  /** Merging the same patch twice changes nothing more. */
  lemma MergeIdempotent(stored: Fields, patch: Fields)
    ensures Merge(Merge(stored, patch), patch) == Merge(stored, patch)
  {
  }

  /** An empty patch leaves the stored fields alone. */
  lemma MergeNothing(stored: Fields)
    ensures Merge(stored, NoFields) == stored
  {
  }
}
