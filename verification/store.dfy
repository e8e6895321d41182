/** The job store (`Database` in src/main/libs/db.js) as operations on an
    immutable map from job id to job document.

    `createJob`, `createExecution` and `generateId` follow db.js. The service
    also calls `getJobs`, `getJob`, `updateJob` and `deleteJob`, which db.js
    does not define; they are modelled here as plain map operations, and
    `updateJob` as a presence-based merge. */
module Store {
  import opened Values
  import opened Records
  import Decimal

  type Db = map<JobId, Job>

  datatype StoreError =
    | Conflict(id: JobId)   // a document with this id already exists
    | Missing(id: JobId)    // no document with this id

  /** The methods the store object answers to: the three db.js defines and the
      four the service assumes. */
  const Methods: set<string> :=
    {"createJob", "createExecution", "generateId", "getJobs", "getJob", "updateJob", "deleteJob"}

  /** The data handed to `createJob`. Besides the job fields a caller may
      supply its own `_id` and `executions`. */
  datatype CreateData = CreateData(id: Option<JobId>, executions: Option<seq<Execution>>, fields: Fields)

  /** `new Date().getTime().toString()`: the current timestamp in decimal. */
  function GenerateId(nowMs: nat): (id: JobId)
    ensures |id| > 0 && Decimal.AllDigits(id)
    ensures Decimal.Parse(id) == nowMs
  {
    Decimal.ParseRender(nowMs);
    Decimal.Render(nowMs)
  }

  /** `put({ _id: generateId(), executions: [], ...data })`. The spread comes
      last, so a supplied `_id` or `executions` wins over the default. Writing
      a document whose id already exists is a conflict. On success the result
      carries the new store and the id written. */
  function CreateJob(db: Db, data: CreateData, nowMs: nat): (r: Result<(Db, JobId), StoreError>)
    ensures data.id.Some? && r.Ok? ==> r.value.1 == data.id.value
    ensures data.id.None? && r.Ok? ==> r.value.1 == GenerateId(nowMs)
    ensures r.Err? <==> data.id.GetOr(GenerateId(nowMs)) in db
    ensures r.Err? ==> r.error == Conflict(data.id.GetOr(GenerateId(nowMs)))
    ensures r.Ok? ==> var (db', id) := r.value;
      && db'.Keys == db.Keys + {id}
      && db'[id].fields == data.fields
      && (data.executions.None? ==> db'[id].executions == [])
      && (data.executions.Some? ==> db'[id].executions == data.executions.value)
      && (forall k :: k in db ==> k in db' && db'[k] == db[k])
  {
    var id := if data.id.Some? then data.id.value else GenerateId(nowMs);
    var executions := if data.executions.Some? then data.executions.value else [];
    if id in db then Err(Conflict(id))
    else Ok((db[id := Job(data.fields, executions)], id))
  }

  /** `get` then push then `put`: appends one execution to an existing job. */
  function CreateExecution(db: Db, id: JobId, e: Execution): (r: Result<Db, StoreError>)
    ensures r.Err? <==> id !in db
    ensures r.Err? ==> r.error == Missing(id)
    ensures r.Ok? ==>
      && r.value.Keys == db.Keys
      && r.value[id].fields == db[id].fields
      && |r.value[id].executions| == |db[id].executions| + 1
      && r.value[id].executions[..|db[id].executions|] == db[id].executions
      && r.value[id].executions[|db[id].executions|] == e
      && (forall k :: k in db && k != id ==> r.value[k] == db[k])
  {
    if id !in db then Err(Missing(id))
    else
      var job := db[id];
      Ok(db[id := job.(executions := job.executions + [e])])
  }

  /** `getJob`: the document, or null when there is none. */
  function GetJob(db: Db, id: JobId): Option<Job>
  {
    Lookup(db, id)
  }

  /** `getJobs` returns every document once; `order` is the sequence of their
      ids in the order the scan yields them, which the store does not fix. */
  predicate IsListing(db: Db, order: seq<JobId>)
  {
    && (forall i :: 0 <= i < |order| ==> order[i] in db)
    && (forall id :: id in db ==> id in order)
    && (forall i, j :: 0 <= i < j < |order| ==> order[i] != order[j])
  }

  /** `updateJob`: merges the defined fields of `patch` into an existing
      document; the executions are never touched; an unknown id is left absent. */
  function UpdateJob(db: Db, id: JobId, patch: Fields): (r: Db)
    ensures r.Keys == db.Keys
    ensures id in db ==> r[id] == Job(Merge(db[id].fields, patch), db[id].executions)
    ensures forall k :: k in db && k != id ==> r[k] == db[k]
  {
    if id in db then db[id := db[id].(fields := Merge(db[id].fields, patch))] else db
  }

  /** `deleteJob`: removes the document, if there is one. */
  function DeleteJob(db: Db, id: JobId): (r: Db)
    ensures r.Keys == db.Keys - {id}
    ensures forall k :: k in r ==> r[k] == db[k]
  {
    db - {id}
  }

  /** Every job field patch keeps the execution history as it was. */
  lemma UpdateKeepsExecutions(db: Db, id: JobId, patch: Fields, k: JobId)
    requires k in db
    ensures k in UpdateJob(db, id, patch)
    ensures UpdateJob(db, id, patch)[k].executions == db[k].executions
  {
  }

  /** Two creates without a supplied id in the same millisecond collide: the
      second is a conflict and writes nothing. */
  lemma SameMillisecondCollides(db: Db, f1: Fields, f2: Fields, nowMs: nat)
    requires CreateJob(db, CreateData(None, None, f1), nowMs).Ok?
    ensures var (db1, id1) := CreateJob(db, CreateData(None, None, f1), nowMs).value;
      CreateJob(db1, CreateData(None, None, f2), nowMs) == Err(Conflict(id1))
  {
  }

  /** Creates in different milliseconds generate different ids. */
  lemma DistinctMillisecondsDistinctIds(t1: nat, t2: nat)
    ensures GenerateId(t1) == GenerateId(t2) <==> t1 == t2
  {
    Decimal.RenderInjective(t1, t2);
  }

  /** Appending executions one after another keeps every earlier entry in its
      place: the history is append-only. */
  lemma {:induction false} AppendOnly(db: Db, id: JobId, es: seq<Execution>)
    requires id in db
    ensures AppendAll(db, id, es).Ok? && id in AppendAll(db, id, es).value
    ensures AppendAll(db, id, es).value[id].executions == db[id].executions + es
    ensures AppendAll(db, id, es).value[id].fields == db[id].fields
  {
    if |es| > 0 {
      var db1 := CreateExecution(db, id, es[0]).value;
      AppendOnly(db1, id, es[1..]);
      assert db1[id].executions == db[id].executions + [es[0]];
      assert db[id].executions + [es[0]] + es[1..] == db[id].executions + es;
    }
  }

  /** A sequence of `createExecution` calls on one job, stopping at the first failure. */
  function AppendAll(db: Db, id: JobId, es: seq<Execution>): Result<Db, StoreError>
  {
    if |es| == 0 then Ok(db)
    else match CreateExecution(db, id, es[0])
      case Err(e) => Err(e)
      case Ok(db1) => AppendAll(db1, id, es[1..])
  }
}
