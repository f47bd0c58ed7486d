/** The server's in-memory registries (`jobs_store` and `user_process_graphs`
    in app.py) and the HTTP handlers that create, read, merge into, run and
    delete their entries. Each handler is a method of `Store` returning the
    status code and body Flask would send. */
module JobStore {
  import opened Results
  import opened Text
  import opened PyJson

  /** What a handler hands back to Flask. */
  datatype Reply =
    | JsonReply(code: nat, body: Json)  // `return jsonify(body), code`
    | EmptyReply(code: nat)             // `return '', code`
    | Uncaught(error: PyError)          // the exception escapes: Flask answers 500

  function StatusCode(r: Reply): nat {
    match r
    case JsonReply(c, _) => c
    case EmptyReply(c) => c
    case Uncaught(_) => 500
  }

  /** `jsonify({'error': message}), code` */
  function ErrorReply(code: nat, message: string): Reply {
    JsonReply(code, JObj(map["error" := JStr(message)]))
  }

  function JobNotFound(id: string): Reply {
    ErrorReply(404, "Job " + id + " not found")
  }

  function GraphNotFound(id: string): Reply {
    ErrorReply(404, "Process graph " + id + " not found")
  }

  // ---------------------------------------------------------------------
  // Identifiers: generated from the size of the store before insertion.

  function JobId(n: nat): string {
    "job-" + NatToString(n)
  }

  function GraphId(n: nat): string {
    "pg-" + NatToString(n)
  }

  lemma JobIdInjective(a: nat, b: nat)
    ensures JobId(a) == JobId(b) ==> a == b
  {
    PrefixedNumberInjective("job-", a, b);
  }

  lemma GraphIdInjective(a: nat, b: nat)
    ensures GraphId(a) == GraphId(b) ==> a == b
  {
    PrefixedNumberInjective("pg-", a, b);
  }

  /** As long as nothing was deleted, the store holds exactly `job-1` ..
      `job-n`, and the id chosen for the next job is not taken. */
  lemma JobIdFreshWhenDense(jobs: map<string, Record>)
    requires jobs.Keys == set k | 1 <= k <= |jobs| :: JobId(k)
    ensures JobId(|jobs| + 1) !in jobs
  {
    if JobId(|jobs| + 1) in jobs {
      var k :| 1 <= k <= |jobs| && JobId(k) == JobId(|jobs| + 1);
      JobIdInjective(k, |jobs| + 1);
    }
  }

  /** The ids `pg-lo` .. `pg-(lo+n-1)`. */
  function GraphIdsFrom(lo: nat, n: nat): set<string> {
    if n == 0 then {} else GraphIdsFrom(lo, n - 1) + {GraphId(lo + n - 1)}
  }

  lemma {:induction false} GraphIdAbove(lo: nat, n: nat, j: nat)
    requires j >= lo + n
    ensures GraphId(j) !in GraphIdsFrom(lo, n)
  {
    if n > 0 {
      GraphIdInjective(j, lo + n - 1);
      GraphIdAbove(lo, n - 1, j);
    }
  }

  /** `n` consecutive numbers give `n` distinct ids. */
  lemma {:induction false} GraphIdsFromCount(lo: nat, n: nat)
    ensures |GraphIdsFrom(lo, n)| == n
    ensures forall j | lo <= j < lo + n :: GraphId(j) in GraphIdsFrom(lo, n)
  {
    if n > 0 {
      GraphIdsFromCount(lo, n - 1);
      GraphIdAbove(lo, n - 1, lo + n - 1);
    }
  }

  lemma {:induction false} GraphIdsFromTaken(keys: set<string>, lo: nat, n: nat)
    requires forall j | lo <= j < lo + n :: GraphId(j) in keys
    ensures GraphIdsFrom(lo, n) <= keys
  {
    if n > 0 {
      GraphIdsFromTaken(keys, lo, n - 1);
    }
  }

  lemma {:induction false} SubsetSize(a: set<string>, b: set<string>)
    requires a <= b
    ensures |a| <= |b|
  {
    if a != {} {
      var x :| x in a;
      SubsetSize(a - {x}, b - {x});
    }
  }

  /** Of the `|keys| + 1` ids from `pg-lo` on, at least one is not taken. */
  lemma {:induction false} FreeGraphIdExists(keys: set<string>, lo: nat)
    ensures exists j | lo <= j <= lo + |keys| :: GraphId(j) !in keys
  {
    if forall j | lo <= j <= lo + |keys| :: GraphId(j) in keys {
      GraphIdsFromCount(lo, |keys| + 1);
      GraphIdsFromTaken(keys, lo, |keys| + 1);
      SubsetSize(GraphIdsFrom(lo, |keys| + 1), keys);
      assert false;
    }
  }

  /** The first number from `k` on whose id is not taken. */
  function FirstFreeGraphNumber(keys: set<string>, k: nat, bound: nat): (r: nat)
    requires k <= bound
    requires exists j | k <= j <= bound :: GraphId(j) !in keys
    ensures k <= r <= bound && GraphId(r) !in keys
    ensures forall j | k <= j < r :: GraphId(j) in keys
    decreases bound - k
  {
    if GraphId(k) !in keys then k
    else
      var j :| k <= j <= bound && GraphId(j) !in keys;
      assert j != k;
      FirstFreeGraphNumber(keys, k + 1, bound)
  }

  /** The id a save was meant to take, "a unique id": the `pg-(size+1)` the
      code picks when it is free, and otherwise the next free one after it. */
  function FreshGraphNumber(keys: set<string>): (k: nat)
    ensures GraphId(k) !in keys
    ensures |keys| + 1 <= k <= 2 * |keys| + 1
    ensures GraphId(|keys| + 1) !in keys ==> k == |keys| + 1
    ensures forall j | |keys| + 1 <= j < k :: GraphId(j) in keys
  {
    FreeGraphIdExists(keys, |keys| + 1);
    FirstFreeGraphNumber(keys, |keys| + 1, 2 * |keys| + 1)
  }

  // ---------------------------------------------------------------------
  // Job creation

  /** The keys every job record is created with; no handler removes one. */
  const CreatedKeys: set<string> :=
    {"id", "title", "description", "process", "status", "created", "plan",
     "budget", "log_level", "collection_id"}

  const KnownStatuses: set<Json> :=
    {JStr("created"), JStr("running"), JStr("finished"), JStr("error")}

  /** `["process"]["process_graph"]["load_data"]["arguments"]` */
  const LoadArguments: seq<string> := ["process", "process_graph", "load_data", "arguments"]

  /** The collection a job body asks for, or the exception reading it raises. */
  function CollectionIdOf(body: Json): (r: Result<Json, PyError>)
    ensures r.Ok? ==> body.JObj?
    ensures r.Ok? <==> LookupPath(body, LoadArguments).Ok? && Subscript(LookupPath(body, LoadArguments).value, "id").Ok?
    ensures r.Ok? ==> r.value == LookupPath(body, LoadArguments).value.fields["id"]
  {
    LookupPathAppend(body, LoadArguments, ["id"]);
    LookupPath(body, LoadArguments + ["id"])
  }

  /** The record stored for a new job; `now` is the already formatted
      `datetime.now().isoformat()`. */
  function NewJob(id: string, body: Record, collectionId: Json, now: string): (job: Record)
    ensures job.Keys == CreatedKeys
    ensures job["id"] == JStr(id) && job["status"] == JStr("created")
    ensures job["collection_id"] == collectionId && job["created"] == JStr(now + "Z")
    ensures job["process"] == RecordGet(body, "process", JNull)
  {
    map[
      "id" := JStr(id),
      "title" := RecordGet(body, "title", JNull),
      "description" := RecordGet(body, "description", JNull),
      "process" := RecordGet(body, "process", JNull),
      "status" := JStr("created"),
      "created" := JStr(now + "Z"),
      "plan" := RecordGet(body, "plan", JStr("free")),
      "budget" := RecordGet(body, "budget", JNull),
      "log_level" := RecordGet(body, "log_level", JStr("info")),
      "collection_id" := collectionId
    ]
  }

  // ---------------------------------------------------------------------
  // Running a job

  /** What the raster backend did with the coverage request. `Responded`
      carries the HTTP status, the decoded JSON body and the raw text;
      `Failed` is any exception raised from the timestamp conversion onward
      (parsing, building the request, the request itself, decoding). */
  datatype BackendOutcome =
    | Responded(statusCode: int, payload: Json, text: string)
    | Failed(message: string)

  /** The lookups that open the try block of `start_job`: the load_data
      arguments, then their spatial and temporal extents. */
  function ExtentLookup(job: Record): (r: Result<(Json, Json), PyError>)
    ensures r.Ok? ==> LookupPath(JObj(job), LoadArguments).Ok?
  {
    var args :- LookupPath(JObj(job), LoadArguments);
    var spatial :- Subscript(args, "spatial_extent");
    var temporal :- Subscript(args, "temporal_extent");
    Ok((spatial, temporal))
  }

  /** The lookups succeed exactly when the load_data arguments are a dict
      holding both extents, and they return those two values. */
  lemma ExtentLookupFinds(job: Record)
    ensures ExtentLookup(job).Ok? <==>
              && LookupPath(JObj(job), LoadArguments).Ok?
              && LookupPath(JObj(job), LoadArguments).value.JObj?
              && "spatial_extent" in LookupPath(JObj(job), LoadArguments).value.fields
              && "temporal_extent" in LookupPath(JObj(job), LoadArguments).value.fields
    ensures ExtentLookup(job).Ok? ==>
              var arguments := LookupPath(JObj(job), LoadArguments).value.fields;
              ExtentLookup(job).value == (arguments["spatial_extent"], arguments["temporal_extent"])
  {
  }

  /** Setting the status first, as `start_job` does, does not change what
      the lookups find. */
  lemma ExtentLookupIgnoresStatus(job: Record, status: Json)
    ensures ExtentLookup(job["status" := status]) == ExtentLookup(job)
  {
    assert Subscript(JObj(job["status" := status]), "process") == Subscript(JObj(job), "process");
  }

  /** The exception, if any, that ends the try block of `start_job`. */
  function StartFailure(job: Record, outcome: BackendOutcome): Option<PyError> {
    if ExtentLookup(job).Err? then Some(ExtentLookup(job).error)
    else if outcome.Failed? then Some(Raised(outcome.message))
    else None
  }

  /** The keys `start_job` writes. */
  const RunKeys: set<string> := {"status", "result", "error", "execution_time"}

  /** The record after `start_job`; `elapsed` is the formatted running time. */
  function StartedJob(job: Record, outcome: BackendOutcome, elapsed: string): (after: Record)
    ensures "status" in after
    ensures after["status"] == JStr("finished") || after["status"] == JStr("error")
    ensures after["status"] == JStr("finished") <==>
              StartFailure(job, outcome) == None && outcome.statusCode == 200
    ensures after["status"] == JStr("finished") ==>
              "result" in after && after["result"] == JObj(map["data" := outcome.payload])
    ensures after["status"] == JStr("error") ==> "error" in after
  {
    var running := job["status" := JStr("running")];
    match StartFailure(job, outcome)
    case Some(e) =>
      running["status" := JStr("error")]["error" := JStr(Message(e))]
    case None =>
      var settled :=
        if outcome.statusCode == 200 then
          running["status" := JStr("finished")]["result" := JObj(map["data" := outcome.payload])]
        else
          running["status" := JStr("error")]["error" := JStr(outcome.text)];
      settled["execution_time" := JStr(elapsed)]
  }

  /** A failed run writes its own error text: `str(e)` of the exception,
      or the backend's reply text for a status other than 200. A run that
      reached the backend records the elapsed time. */
  lemma StartedJobError(job: Record, outcome: BackendOutcome, elapsed: string)
    ensures var after := StartedJob(job, outcome, elapsed);
      && (after["status"] == JStr("error") ==>
            after["error"] == match StartFailure(job, outcome)
                              case Some(e) => JStr(Message(e))
                              case None => JStr(outcome.text))
      && (StartFailure(job, outcome) == None ==>
            "execution_time" in after && after["execution_time"] == JStr(elapsed))
  {
  }

  /** Only status, result, error and execution_time change in a run. */
  lemma StartedJobKeys(job: Record, outcome: BackendOutcome, elapsed: string)
    ensures var after := StartedJob(job, outcome, elapsed);
      && after.Keys == job.Keys + {"status"} + (after.Keys * RunKeys)
      && forall k | k in job && k !in RunKeys :: after[k] == job[k]
  {
  }

  /** A failed run leaves `result` as it was, and a run ended by an
      exception also leaves `execution_time` as it was. */
  lemma FailedRunKeepsResult(job: Record, outcome: BackendOutcome, elapsed: string)
    requires StartFailure(job, outcome).Some? || outcome.statusCode != 200
    ensures var after := StartedJob(job, outcome, elapsed);
      && ("result" in after <==> "result" in job)
      && ("result" in job ==> after["result"] == job["result"])
    ensures StartFailure(job, outcome).Some? ==>
      var after := StartedJob(job, outcome, elapsed);
      && ("execution_time" in after <==> "execution_time" in job)
      && ("execution_time" in job ==> after["execution_time"] == job["execution_time"])
  {
  }

  /** The reply of `start_job` for a known job: 202 with the job whenever the
      backend answered, whatever its status; 500 when an exception ended the
      try block. */
  function StartReply(job: Record, outcome: BackendOutcome, elapsed: string): (r: Reply)
    ensures StatusCode(r) == if StartFailure(job, outcome) == None then 202 else 500
    ensures StartFailure(job, outcome) == None ==>
              r == JsonReply(202, JObj(StartedJob(job, outcome, elapsed)))
  {
    match StartFailure(job, outcome)
    case Some(e) => ErrorReply(500, Message(e))
    case None => JsonReply(202, JObj(StartedJob(job, outcome, elapsed)))
  }

  /** An exception in the run is answered with 500 and its text. */
  lemma StartReplyFailed(job: Record, outcome: BackendOutcome, elapsed: string)
    requires StartFailure(job, outcome).Some?
    ensures StartReply(job, outcome, elapsed) == ErrorReply(500, Message(StartFailure(job, outcome).value))
  {
  }

  /** A rerun that succeeds keeps the error text of an earlier failed run:
      `start_job` never clears `error` (nor `result`). */
  lemma {:induction false} SuccessfulRerunKeepsOldError(job: Record, payload: Json, text: string, elapsed: string)
    requires "error" in job
    requires ExtentLookup(job).Ok?
    ensures var after := StartedJob(job, Responded(200, payload, text), elapsed);
            after["status"] == JStr("finished") && after["error"] == job["error"]
  {
  }

  /** The body of `start_job` for a known job: marks it running, looks up
      the extents, calls the backend (whose answer is `outcome`) and records
      how the run ended. */
  method RunJob(before: Record, outcome: BackendOutcome, elapsed: string) returns (job: Record, reply: Reply)
    ensures job == StartedJob(before, outcome, elapsed)
    ensures reply == StartReply(before, outcome, elapsed)
  {
    job := before;
    job := job["status" := JStr("running")];
    var extents := ExtentLookup(job);
    ExtentLookupIgnoresStatus(before, JStr("running"));
    if extents.Err? {
      assert StartFailure(before, outcome) == Some(extents.error);
      job := job["status" := JStr("error")];
      job := job["error" := JStr(Message(extents.error))];
      reply := ErrorReply(500, Message(extents.error));
    } else if outcome.Failed? {
      assert StartFailure(before, outcome) == Some(Raised(outcome.message));
      job := job["status" := JStr("error")];
      job := job["error" := JStr(outcome.message)];
      reply := ErrorReply(500, outcome.message);
    } else {
      assert StartFailure(before, outcome) == None;
      if outcome.statusCode == 200 {
        job := job["status" := JStr("finished")];
        job := job["result" := JObj(map["data" := outcome.payload])];
      } else {
        job := job["status" := JStr("error")];
        job := job["error" := JStr(outcome.text)];
      }
      job := job["execution_time" := JStr(elapsed)];
      reply := JsonReply(202, JObj(job));
    }
  }

  // ---------------------------------------------------------------------
  // Results of a finished job

  const NotFinished := "Job is not finished yet"

  /** `float(...)` of one corner coordinate of the job's spatial extent. */
  function Coordinate(job: Record, corner: string, parseFloat: string -> Option<real>): Result<real, PyError> {
    var v :- LookupPath(JObj(job), LoadArguments + ["spatial_extent", corner]);
    ToFloat(v, parseFloat)
  }

  /** `job.get('result', {}).get('temperature')` */
  function Temperature(job: Record): Result<Json, PyError> {
    Get(RecordGet(job, "result", JObj(map[])), "temperature", JNull)
  }

  /** The STAC item `get_job_results` assembles, or the exception the
      assembly raises, evaluated in the order of the dict literal: west,
      north, the first instant of the temporal extent, the temperature. */
  function StacItem(id: string, job: Record, parseFloat: string -> Option<real>): Result<Json, PyError> {
    var west :- Coordinate(job, "west", parseFloat);
    var north :- Coordinate(job, "north", parseFloat);
    var temporal :- LookupPath(JObj(job), LoadArguments + ["temporal_extent"]);
    var first :- IndexAt(temporal, 0);
    var temperature :- Temperature(job);
    Ok(StacDocument(id, west, north, first, RecordGet(job, "title", JStr("")),
                    RecordGet(job, "description", JStr("")), temperature))
  }

  /** The item is built exactly when every step of the assembly succeeds. */
  lemma StacItemBuilt(id: string, job: Record, parseFloat: string -> Option<real>)
    ensures StacItem(id, job, parseFloat).Ok? <==>
              && Coordinate(job, "west", parseFloat).Ok?
              && Coordinate(job, "north", parseFloat).Ok?
              && LookupPath(JObj(job), LoadArguments + ["temporal_extent"]).Ok?
              && IndexAt(LookupPath(JObj(job), LoadArguments + ["temporal_extent"]).value, 0).Ok?
              && Temperature(job).Ok?
  {
  }

  function StacDocument(id: string, west: real, north: real, datetime: Json,
                        title: Json, description: Json, temperature: Json): Json
  {
    JObj(map[
      "stac_version" := JStr("1.0.0"),
      "id" := JStr(id),
      "type" := JStr("Feature"),
      "geometry" := JObj(map[
        "type" := JStr("Point"),
        "coordinates" := JArr([JNum(west), JNum(north)])]),
      "properties" := JObj(map[
        "datetime" := datetime,
        "title" := title,
        "description" := description,
        "temperature" := temperature]),
      "assets" := JObj(map[
        "data" := JObj(map[
          "href" := JStr("http://localhost:8080/rasdaman/ows?service=WCS&version=2.0.1&request=GetCoverage&coverageId=era5_weekly"),
          "type" := JStr("image/tiff"),
          "roles" := JArr([JStr("data")])]),
        "metadata" := JObj(map[
          "href" := JStr("http://localhost:5000/jobs/" + id),
          "type" := JStr("application/json"),
          "roles" := JArr([JStr("metadata")])])]),
      "links" := JArr([JObj(map[
        "rel" := JStr("self"),
        "href" := JStr("http://localhost:5000/jobs/" + id + "/results"),
        "type" := JStr("application/json")])])
    ])
  }

  /** The error stored in a job whose result assembly raised. */
  function InternalError(e: PyError): Json {
    JObj(map[
      "code" := JStr("InternalServerError"),
      "message" := JStr(Message(e)),
      "status_code" := JInt(500)])
  }

  /** A job that `start_job` finished carries `{'data': ...}` as its result,
      so the temperature its STAC item reports is always null. */
  lemma FinishedJobHasNoTemperature(job: Record, payload: Json, text: string, elapsed: string)
    requires StartFailure(job, Responded(200, payload, text)) == None
    ensures Temperature(StartedJob(job, Responded(200, payload, text), elapsed)) == Ok(JNull)
  {
    var after := StartedJob(job, Responded(200, payload, text), elapsed);
    assert after["result"] == JObj(map["data" := payload]);
  }

  // ---------------------------------------------------------------------
  // Process graphs

  /** The built-in NDVI graph the registry starts with. */
  function NdviGraph(): Json {
    JObj(map[
      "summary" := JStr("Normalized Difference Vegetation Index"),
      "description" := JStr("Computes the NDVI from red and NIR bands"),
      "process_graph" := JObj(map[
        "nir" := JObj(map[
          "process_id" := JStr("load_collection"),
          "arguments" := JObj(map["id" := JStr("S2_NIR")])]),
        "red" := JObj(map[
          "process_id" := JStr("load_collection"),
          "arguments" := JObj(map["id" := JStr("S2_RED")])]),
        "subtract" := JObj(map[
          "process_id" := JStr("subtract"),
          "arguments" := JObj(map[
            "x" := JObj(map["from_node" := JStr("nir")]),
            "y" := JObj(map["from_node" := JStr("red")])])]),
        "add" := JObj(map[
          "process_id" := JStr("add"),
          "arguments" := JObj(map[
            "x" := JObj(map["from_node" := JStr("nir")]),
            "y" := JObj(map["from_node" := JStr("red")])])]),
        "divide" := JObj(map[
          "process_id" := JStr("divide"),
          "arguments" := JObj(map[
            "x" := JObj(map["from_node" := JStr("subtract")]),
            "y" := JObj(map["from_node" := JStr("add")])]),
          "result" := JBool(true)])])])
  }

  /** The text of the TypeError raised by `value["id"] = ...` on a value
      that is not a dict. */
  function ItemAssignmentError(j: Json): PyError {
    if j.JArr? then TypeError("list indices must be integers or slices, not str")
    else TypeError("'" + TypeName(j) + "' object does not support item assignment")
  }

  // ---------------------------------------------------------------------
  // Invariants of the job store

  ghost predicate KeysKept(jobs: map<string, Record>) {
    forall id | id in jobs :: CreatedKeys <= jobs[id].Keys
  }

  ghost predicate StatusesIn(jobs: map<string, Record>) {
    forall id | id in jobs :: "status" in jobs[id] && jobs[id]["status"] in KnownStatuses
  }

  lemma StoreUpdate(jobs: map<string, Record>, id: string, job: Record)
    ensures KeysKept(jobs) && CreatedKeys <= job.Keys ==> KeysKept(jobs[id := job])
    ensures StatusesIn(jobs) && "status" in job && job["status"] in KnownStatuses ==>
              StatusesIn(jobs[id := job])
  {
  }

  // ---------------------------------------------------------------------
  // The registry

  class Store {
    var jobs: map<string, Record>
    var processGraphs: map<string, Json>

    /** Every job keeps the keys it was created with: merging and running
        only add or overwrite keys. */
    ghost predicate Valid()
      reads this
    {
      KeysKept(jobs)
    }

    /** Every job's status is one of the four the lifecycle uses. A PATCH
        can store any other value, so this is not an invariant. */
    ghost predicate StatusesKnown()
      reads this
    {
      StatusesIn(jobs)
    }

    constructor ()
      ensures Valid() && StatusesKnown()
      ensures jobs == map[] && processGraphs == map["ndvi_1" := NdviGraph()]
    {
      jobs := map[];
      processGraphs := map["ndvi_1" := NdviGraph()];
    }

    /** POST /jobs */
    method CreateJob(body: Json, now: string) returns (reply: Reply)
      requires Valid()
      modifies this
      ensures Valid() && processGraphs == old(processGraphs)
      ensures old(StatusesKnown()) ==> StatusesKnown()
      ensures CollectionIdOf(body).Err? ==>
                jobs == old(jobs) && reply == Uncaught(CollectionIdOf(body).error)
      ensures CollectionIdOf(body).Ok? ==>
                var id := JobId(|old(jobs)| + 1);
                && jobs == old(jobs)[id := NewJob(id, body.fields, CollectionIdOf(body).value, now)]
                && jobs[id]["status"] == JStr("created")
                && reply == JsonReply(201, JObj(jobs[id]))
                && (id in old(jobs) ==> |jobs| == |old(jobs)|)
                && (id !in old(jobs) ==> |jobs| == |old(jobs)| + 1)
    {
      var id := JobId(|jobs| + 1);
      var collectionId := CollectionIdOf(body);
      if collectionId.Err? {
        reply := Uncaught(collectionId.error);
        return;
      }
      var job := NewJob(id, body.fields, collectionId.value, now);
      jobs := jobs[id := job];
      reply := JsonReply(201, JObj(job));
    }

    /** GET /jobs/<job_id> */
    method GetJob(id: string) returns (reply: Reply)
      requires Valid()
      ensures id in jobs ==> reply == JsonReply(200, JObj(jobs[id]))
      ensures id !in jobs ==> reply == JobNotFound(id)
    {
      var job := if id in jobs then JObj(jobs[id]) else JNull;
      if id in jobs {
        assert "id" in jobs[id];
      }
      if Truthy(job) {
        reply := JsonReply(200, job);
      } else {
        reply := JobNotFound(id);
      }
    }

    /** PATCH /jobs/<job_id>: `update_job` merges the body into the record. */
    method PatchJob(id: string, updates: Record) returns (reply: Reply)
      requires Valid()
      modifies this
      ensures Valid() && processGraphs == old(processGraphs)
      ensures id in old(jobs) ==>
                && jobs == old(jobs)[id := Merge(old(jobs)[id], updates)]
                && reply == JsonReply(200, JObj(jobs[id]))
      ensures id !in old(jobs) ==> jobs == old(jobs) && reply == JobNotFound(id)
    {
      if id in jobs {
        var job := Merge(jobs[id], updates);
        jobs := jobs[id := job];
        assert "id" in job;
        if Truthy(JObj(job)) {
          reply := JsonReply(200, JObj(job));
        } else {
          reply := JobNotFound(id);
        }
      } else {
        reply := JobNotFound(id);
      }
    }

    /** DELETE /jobs/<job_id>: `delete_job` answered True (204) or False (404). */
    method DeleteJob(id: string) returns (reply: Reply)
      requires Valid()
      modifies this
      ensures Valid() && processGraphs == old(processGraphs)
      ensures old(StatusesKnown()) ==> StatusesKnown()
      ensures id in old(jobs) ==> jobs == old(jobs) - {id} && reply == EmptyReply(204)
      ensures id !in old(jobs) ==> jobs == old(jobs) && reply == JobNotFound(id)
    {
      var deleted := false;
      if id in jobs {
        jobs := jobs - {id};
        deleted := true;
      }
      if deleted {
        reply := EmptyReply(204);
      } else {
        reply := JobNotFound(id);
      }
    }

    /** POST /jobs/<job_id>/results: runs the job against the backend, whose
        answer is `outcome`. */
    method StartJob(id: string, outcome: BackendOutcome, elapsed: string) returns (reply: Reply)
      requires Valid()
      modifies this
      ensures Valid() && processGraphs == old(processGraphs)
      ensures old(StatusesKnown()) ==> StatusesKnown()
      ensures id !in old(jobs) ==> jobs == old(jobs) && reply == JobNotFound(id)
      ensures id in old(jobs) ==>
                && jobs == old(jobs)[id := StartedJob(old(jobs)[id], outcome, elapsed)]
                && reply == StartReply(old(jobs)[id], outcome, elapsed)
    {
      if id !in jobs {
        reply := JobNotFound(id);
        return;
      }
      var job;
      job, reply := RunJob(jobs[id], outcome, elapsed);
      StartedJobKeys(jobs[id], outcome, elapsed);
      StoreUpdate(jobs, id, job);
      jobs := jobs[id := job];
    }

    /** GET /jobs/<job_id>/results */
    method GetJobResults(id: string, parseFloat: string -> Option<real>) returns (reply: Reply)
      requires Valid()
      modifies this
      ensures Valid() && processGraphs == old(processGraphs)
      ensures old(StatusesKnown()) ==> StatusesKnown()
      ensures id !in old(jobs) ==> jobs == old(jobs) && reply == JobNotFound(id)
      ensures id in old(jobs) && old(jobs)[id]["status"] != JStr("finished") ==>
                jobs == old(jobs) && reply == ErrorReply(400, NotFinished)
      ensures id in old(jobs) && old(jobs)[id]["status"] == JStr("finished") ==>
                match StacItem(id, old(jobs)[id], parseFloat)
                case Ok(item) => jobs == old(jobs) && reply == JsonReply(200, item)
                case Err(e) =>
                  && jobs == old(jobs)[id := old(jobs)[id]["status" := JStr("error")]["error" := InternalError(e)]]
                  && reply == JsonReply(500, InternalError(e))
    {
      if id !in jobs {
        reply := JobNotFound(id);
        return;
      }
      var job := jobs[id];
      if job["status"] != JStr("finished") {
        reply := ErrorReply(400, NotFinished);
        return;
      }
      var item := StacItem(id, job, parseFloat);
      if item.Err? {
        job := job["status" := JStr("error")];
        job := job["error" := InternalError(item.error)];
        jobs := jobs[id := job];
        reply := JsonReply(500, InternalError(item.error));
      } else {
        reply := JsonReply(200, item.value);
      }
    }

    /** POST /process_graphs: `save_process_graph` stores the body under the
        next `pg-` id and then writes that id into it; a body that is not a
        JSON object is stored before the write raises. */
    method SaveProcessGraph(body: Json) returns (reply: Reply)
      modifies this
      ensures jobs == old(jobs)
      ensures var id := GraphId(|old(processGraphs)| + 1);
              && (body.JObj? ==>
                    && processGraphs == old(processGraphs)[id := JObj(body.fields["id" := JStr(id)])]
                    && reply == JsonReply(201, processGraphs[id]))
              && (!body.JObj? ==>
                    && processGraphs == old(processGraphs)[id := body]
                    && reply == Uncaught(ItemAssignmentError(body)))
    {
      var id := GraphId(|processGraphs| + 1);
      processGraphs := processGraphs[id := body];
      if body.JObj? {
        var stored := JObj(body.fields["id" := JStr(id)]);
        processGraphs := processGraphs[id := stored];
        reply := JsonReply(201, stored);
      } else {
        reply := Uncaught(ItemAssignmentError(body));
      }
    }

    /** `save_process_graph` as its comment intends: the graph is given an id
        no stored graph has, so no save replaces another graph. */
    method SaveProcessGraphFresh(body: Json) returns (reply: Reply)
      modifies this
      ensures jobs == old(jobs)
      ensures var id := GraphId(FreshGraphNumber(old(processGraphs).Keys));
              && id !in old(processGraphs)
              && (body.JObj? ==>
                    && processGraphs == old(processGraphs)[id := JObj(body.fields["id" := JStr(id)])]
                    && reply == JsonReply(201, processGraphs[id]))
              && (!body.JObj? ==>
                    && processGraphs == old(processGraphs)[id := body]
                    && reply == Uncaught(ItemAssignmentError(body)))
      ensures forall k | k in old(processGraphs) :: k in processGraphs && processGraphs[k] == old(processGraphs)[k]
    {
      var id := GraphId(FreshGraphNumber(processGraphs.Keys));
      processGraphs := processGraphs[id := body];
      if body.JObj? {
        var stored := JObj(body.fields["id" := JStr(id)]);
        processGraphs := processGraphs[id := stored];
        reply := JsonReply(201, stored);
      } else {
        reply := Uncaught(ItemAssignmentError(body));
      }
    }

    /** GET /process_graphs/<process_graph_id>: a stored value that Python
        reads as false is reported missing. */
    method GetProcessGraph(id: string) returns (reply: Reply)
      ensures id in processGraphs && Truthy(processGraphs[id]) ==>
                reply == JsonReply(200, processGraphs[id])
      ensures !(id in processGraphs && Truthy(processGraphs[id])) ==>
                reply == ErrorReply(404, "Could not retrieve process graph " + id)
    {
      var graph := if id in processGraphs then processGraphs[id] else JNull;
      if Truthy(graph) {
        reply := JsonReply(200, graph);
      } else {
        reply := ErrorReply(404, "Could not retrieve process graph " + id);
      }
    }

    /** PATCH /process_graphs/<process_graph_id>: `update_process_graph`
        merges the body into the stored graph. */
    method UpdateProcessGraph(id: string, updates: Record) returns (reply: Reply)
      modifies this
      ensures jobs == old(jobs)
      ensures id !in old(processGraphs) ==>
                processGraphs == old(processGraphs) && reply == GraphNotFound(id)
      ensures id in old(processGraphs) && old(processGraphs)[id].JObj? ==>
                var merged := Merge(old(processGraphs)[id].fields, updates);
                && processGraphs == old(processGraphs)[id := JObj(merged)]
                && reply == (if merged != map[] then JsonReply(200, JObj(merged)) else GraphNotFound(id))
      ensures id in old(processGraphs) && !old(processGraphs)[id].JObj? ==>
                && processGraphs == old(processGraphs)
                && reply == Uncaught(AttributeError("'" + TypeName(old(processGraphs)[id]) + "' object has no attribute 'update'"))
    {
      if id !in processGraphs {
        reply := GraphNotFound(id);
        return;
      }
      var graph := processGraphs[id];
      if !graph.JObj? {
        reply := Uncaught(AttributeError("'" + TypeName(graph) + "' object has no attribute 'update'"));
        return;
      }
      var merged := JObj(Merge(graph.fields, updates));
      processGraphs := processGraphs[id := merged];
      if Truthy(merged) {
        reply := JsonReply(200, merged);
      } else {
        reply := GraphNotFound(id);
      }
    }

    /** DELETE /process_graphs/<process_graph_id> */
    method DeleteProcessGraph(id: string) returns (reply: Reply)
      modifies this
      ensures jobs == old(jobs)
      ensures id in old(processGraphs) ==>
                processGraphs == old(processGraphs) - {id} && reply == EmptyReply(204)
      ensures id !in old(processGraphs) ==>
                processGraphs == old(processGraphs) && reply == GraphNotFound(id)
    {
      if id in processGraphs {
        processGraphs := processGraphs - {id};
        reply := EmptyReply(204);
      } else {
        reply := GraphNotFound(id);
      }
    }
  }

  /** Because the id is derived from the store size, a job created after a
      deletion can be given the id of a job that is still stored: with
      `job-1` and `job-2` created and `job-1` deleted, the next job is
      `job-2` again and replaces the stored one. */
  lemma CreationAfterDeletionReusesId(first: Record, second: Record)
    ensures var store := map[JobId(1) := first, JobId(2) := second] - {JobId(1)};
            JobId(|store| + 1) in store
  {
    var store := map[JobId(1) := first, JobId(2) := second] - {JobId(1)};
    JobIdInjective(1, 2);
    assert store.Keys == {JobId(2)};
  }

  /** `save_process_graph` takes `pg-(size+1)` whatever is stored: once
      `ndvi_1` is deleted after the first save, the next save is given
      `pg-2` again and replaces the graph stored there. */
  lemma SaveAfterDeletionReplacesGraph(saved: Json)
    ensures var graphs := map["ndvi_1" := NdviGraph(), GraphId(2) := saved] - {"ndvi_1"};
            GraphId(|graphs| + 1) in graphs
  {
    var graphs := map["ndvi_1" := NdviGraph(), GraphId(2) := saved] - {"ndvi_1"};
    assert GraphId(2) != "ndvi_1" by {
      assert GraphId(2)[0] == 'p';
    }
    assert graphs.Keys == {GraphId(2)};
  }

  /** Next to the built-in `ndvi_1`, the first graph a client saves is
      stored as `pg-2`. */
  lemma FirstSavedGraphId()
    ensures GraphId(|map["ndvi_1" := NdviGraph()]| + 1) == "pg-2"
  {
  }
}
