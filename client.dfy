/** The Python client of interface/__init__.py: `OpenEOClient` (its base
    URL, the request URLs it builds, the requests its endpoint methods send
    and how `make_request` turns a response into a value or an
    `OpenEOApiError`) and the module's two input validators. The network
    call itself is a parameter (`Transport`); timestamps are opaque ordered
    instants, with their ISO rendering a parameter. */
module Client {
  import opened Results
  import opened Text
  import opened PyJson
  import JobStore

  // ---------------------------------------------------------------------
  // Base URL and request URLs

  /** `OpenEOClient`: the only state is the base URL, set once. */
  datatype Client = Client(baseUrl: string)

  const DefaultBaseUrl := "http://localhost:5000"

  /** `OpenEOClient()`: the default base URL has no trailing slash, so it is
      kept as it is. */
  function DefaultClient(): (c: Client)
    ensures c.baseUrl == DefaultBaseUrl
    ensures RequestUrl(c, "jobs") == "http://localhost:5000/jobs"
  {
    var c := NewClient(DefaultBaseUrl);
    RStripNothing(DefaultBaseUrl, '/');
    LStripNothing("jobs", '/');
    assert DefaultBaseUrl + "/" + "jobs" == "http://localhost:5000/jobs";
    c
  }

  /** The constructor keeps the base URL without its trailing slashes. */
  function NewClient(baseUrl: string): (c: Client)
    ensures c.baseUrl <= baseUrl
    ensures c.baseUrl == [] || c.baseUrl[|c.baseUrl| - 1] != '/'
    ensures forall i | |c.baseUrl| <= i < |baseUrl| :: baseUrl[i] == '/'
  {
    Client(RStrip(baseUrl, '/'))
  }

  /** Extra trailing slashes on the base URL make no difference. */
  lemma NewClientIgnoresTrailingSlashes(baseUrl: string, pad: string)
    requires forall i | 0 <= i < |pad| :: pad[i] == '/'
    ensures NewClient(baseUrl + pad) == NewClient(baseUrl)
  {
    RStripPadded(baseUrl, pad, '/');
  }

  /** The URL `make_request` sends to: the base URL, one slash, and the
      endpoint without its leading slashes. */
  function RequestUrl(c: Client, endpoint: string): (url: string)
    ensures |url| > |c.baseUrl| && url[..|c.baseUrl| + 1] == c.baseUrl + "/"
    ensures EndsWith(endpoint, url[|c.baseUrl| + 1..])
    ensures |url| == |c.baseUrl| + 1 || url[|c.baseUrl| + 1] != '/'
    ensures forall i | 0 <= i < |endpoint| - (|url| - |c.baseUrl| - 1) :: endpoint[i] == '/'
  {
    c.baseUrl + "/" + LStrip(endpoint, '/')
  }

  /** Leading slashes on the endpoint make no difference. */
  lemma RequestUrlIgnoresLeadingSlashes(c: Client, pad: string, endpoint: string)
    requires forall i | 0 <= i < |pad| :: pad[i] == '/'
    ensures RequestUrl(c, pad + endpoint) == RequestUrl(c, endpoint)
  {
    LStripPadded(pad, endpoint, '/');
  }

  /** However many slashes the caller puts between the two parts, the URL
      holds exactly one. */
  lemma {:induction false} OneSlashBetween(base: string, basePad: string, endpointPad: string, endpoint: string)
    requires base == [] || base[|base| - 1] != '/'
    requires endpoint == [] || endpoint[0] != '/'
    requires forall i | 0 <= i < |basePad| :: basePad[i] == '/'
    requires forall i | 0 <= i < |endpointPad| :: endpointPad[i] == '/'
    ensures RequestUrl(NewClient(base + basePad), endpointPad + endpoint) == base + "/" + endpoint
  {
    NewClientIgnoresTrailingSlashes(base, basePad);
    RequestUrlIgnoresLeadingSlashes(NewClient(base), endpointPad, endpoint);
    assert NewClient(base) == Client(base);
    assert LStrip(endpoint, '/') == endpoint;
  }

  // ---------------------------------------------------------------------
  // The requests of the endpoint methods

  datatype Method = GET | POST | PATCH | DELETE

  /** What an endpoint method hands to `make_request`. */
  datatype Request = Request(verb: Method, endpoint: string, data: Option<Json>)

  /** `get_collections`, `get_processes` and `get_jobs`: a GET with no body
      of a path of one segment. */
  function GetCollections(): (r: Request)
    ensures r.verb == GET && r.data == None && '/' !in r.endpoint
  {
    Request(GET, "collections", None)
  }

  /** `get_collection_details`: a GET with no body of the collection's path. */
  function GetCollectionDetails(collectionId: string): (r: Request)
    ensures r.verb == GET && r.data == None
    ensures '/' !in collectionId ==> Split(r.endpoint, '/') == ["collections", collectionId]
  {
    CollectionPath(collectionId);
    Request(GET, "collections/" + collectionId, None)
  }

  /** The three listings are requested at the base URL followed by
      `/collections`, `/processes` and `/jobs`. */
  lemma ListingUrls(c: Client)
    ensures RequestUrl(c, GetCollections().endpoint) == c.baseUrl + "/collections"
    ensures RequestUrl(c, GetProcesses().endpoint) == c.baseUrl + "/processes"
    ensures RequestUrl(c, GetJobs().endpoint) == c.baseUrl + "/jobs"
  {
    LStripNothing("collections", '/');
    LStripNothing("processes", '/');
    LStripNothing("jobs", '/');
    assert "/" + "collections" == "/collections";
    assert "/" + "processes" == "/processes";
    assert "/" + "jobs" == "/jobs";
  }

  lemma CollectionPath(collectionId: string)
    ensures '/' !in collectionId ==> Split("collections/" + collectionId, '/') == ["collections", collectionId]
  {
    if '/' !in collectionId {
      assert "collections/" + collectionId == "collections" + "/" + collectionId;
      TwoSegments("collections", collectionId);
    }
  }

  function GetProcesses(): (r: Request)
    ensures r.verb == GET && r.data == None && '/' !in r.endpoint
  {
    Request(GET, "processes", None)
  }

  function GetJobs(): (r: Request)
    ensures r.verb == GET && r.data == None && '/' !in r.endpoint
  {
    Request(GET, "jobs", None)
  }

  /** `start_job`: POST to the job's results. */
  function StartJob(jobId: string): (r: Request)
    ensures r.verb == POST && r.data == None
    ensures '/' !in jobId ==> Split(r.endpoint, '/') == ["jobs", jobId, "results"]
  {
    ThreeSegmentPath(jobId);
    Request(POST, "jobs/" + jobId + "/results", None)
  }

  /** `get_job_results`: GET of the same path. */
  function GetJobResults(jobId: string): (r: Request)
    ensures r.verb == GET && r.data == None
    ensures '/' !in jobId ==> Split(r.endpoint, '/') == ["jobs", jobId, "results"]
  {
    ThreeSegmentPath(jobId);
    Request(GET, "jobs/" + jobId + "/results", None)
  }

  /** `delete_job`: DELETE of the job itself. */
  function DeleteJob(jobId: string): (r: Request)
    ensures r.verb == DELETE && r.data == None
    ensures '/' !in jobId ==> Split(r.endpoint, '/') == ["jobs", jobId]
  {
    TwoSegmentPath(jobId);
    Request(DELETE, "jobs/" + jobId, None)
  }

  lemma TwoSegmentPath(jobId: string)
    ensures '/' !in jobId ==> Split("jobs/" + jobId, '/') == ["jobs", jobId]
  {
    if '/' !in jobId {
      assert "jobs/" + jobId == "jobs" + "/" + jobId;
      TwoSegments("jobs", jobId);
    }
  }

  lemma ThreeSegmentPath(jobId: string)
    ensures '/' !in jobId ==> Split("jobs/" + jobId + "/results", '/') == ["jobs", jobId, "results"]
  {
    if '/' !in jobId {
      assert "jobs/" + jobId + "/results" == "jobs" + "/" + jobId + "/" + "results";
      ThreeSegments("jobs", jobId, "results");
    }
  }

  /** Each job path names one job: different ids give different requests. */
  lemma JobRequestsInjective(a: string, b: string)
    ensures StartJob(a) == StartJob(b) ==> a == b
    ensures GetJobResults(a) == GetJobResults(b) ==> a == b
    ensures DeleteJob(a) == DeleteJob(b) ==> a == b
  {
    if "jobs/" + a + "/results" == "jobs/" + b + "/results" {
      assert a == ("jobs/" + a + "/results")[5..5 + |a|];
    }
    if "jobs/" + a == "jobs/" + b {
      assert a == ("jobs/" + a)[5..];
    }
  }

  /** The `arguments` of the body's `load_data` node. */
  function LoadArgumentsJson(collectionId: string, spatial: Json, temporal: Json): Json {
    JObj(map["id" := JStr(collectionId), "spatial_extent" := spatial, "temporal_extent" := temporal])
  }

  /** The body's `process`: a one-node graph loading the collection. */
  function ProcessJson(arguments: Json): Json {
    JObj(map["process_graph" := JObj(map["load_data" := JObj(map[
      "process_id" := JStr("load_collection"),
      "arguments" := arguments])])])
  }

  /** The body `create_job` posts. */
  function JobBody(title: string, collectionId: string, spatial: Json, temporal: Json): Json {
    JObj(map["title" := JStr(title), "process" := ProcessJson(LoadArgumentsJson(collectionId, spatial, temporal))])
  }

  /** `create_job`: POST of the job body to `jobs`. A temporal extent of
      `None` (`JNull`), given or defaulted, asks for the last seven days;
      `lastWeek` is that pair of instants already rendered by `isoformat()`. */
  function CreateJob(title: string, collectionId: string, spatial: Json,
                     temporal: Json, lastWeek: (string, string)): (r: Request)
    ensures r.verb == POST && r.endpoint == "jobs" && r.data.Some?
    ensures !temporal.JNull? ==> r.data.value == JobBody(title, collectionId, spatial, temporal)
    ensures temporal.JNull? ==>
      r.data.value == JobBody(title, collectionId, spatial,
                              JArr([JStr(lastWeek.0 + "Z"), JStr(lastWeek.1 + "Z")]))
  {
    var extent := if temporal.JNull? then JArr([JStr(lastWeek.0 + "Z"), JStr(lastWeek.1 + "Z")]) else temporal;
    Request(POST, "jobs", Some(JobBody(title, collectionId, spatial, extent)))
  }

  /** A body built by the client is one the server can create and start: it
      finds the collection id where `jobs` POST looks for it ... */
  lemma ClientJobCollection(title: string, collectionId: string, spatial: Json, temporal: Json)
    ensures JobStore.CollectionIdOf(JobBody(title, collectionId, spatial, temporal)) == Ok(JStr(collectionId))
  {
    var arguments := LoadArgumentsJson(collectionId, spatial, temporal);
    BodyReachesArguments(title, collectionId, spatial, temporal, []);
    assert LookupPath(arguments, []) == Ok(arguments);
  }

  /** ... and the job stored for that body yields both extents to the
      lookups that open `start_job`. */
  lemma ClientJobExtents(title: string, collectionId: string, spatial: Json, temporal: Json,
                         jobId: string, now: string)
    ensures JobStore.ExtentLookup(JobStore.NewJob(jobId, JobBody(title, collectionId, spatial, temporal).fields,
                                                  JStr(collectionId), now))
            == Ok((spatial, temporal))
  {
    var arguments := LoadArgumentsJson(collectionId, spatial, temporal);
    var body := JobBody(title, collectionId, spatial, temporal);
    var job := JobStore.NewJob(jobId, body.fields, JStr(collectionId), now);
    assert job["process"] == ProcessJson(arguments);
    StoredProcessReachesArguments(job, arguments);
    ArgumentsYieldExtents(job, collectionId, spatial, temporal);
  }

  /** A stored job whose `process` is a client-built process leads the
      server's lookup to that process's `arguments`. */
  lemma StoredProcessReachesArguments(job: Record, arguments: Json)
    requires "process" in job && job["process"] == ProcessJson(arguments)
    ensures LookupPath(JObj(job), JobStore.LoadArguments) == Ok(arguments)
  {
    assert JobStore.LoadArguments == ["process"] + (["process_graph", "load_data", "arguments"] + []);
    BodyPath(JObj(job), ["process_graph", "load_data", "arguments"] + []);
    ProcessReachesArguments(arguments, []);
    assert LookupPath(arguments, []) == Ok(arguments);
  }

  /** Client-built arguments hold both extents. */
  lemma ArgumentsYieldExtents(job: Record, collectionId: string, spatial: Json, temporal: Json)
    requires LookupPath(JObj(job), JobStore.LoadArguments) == Ok(LoadArgumentsJson(collectionId, spatial, temporal))
    ensures JobStore.ExtentLookup(job) == Ok((spatial, temporal))
  {
    JobStore.ExtentLookupFinds(job);
  }

  /** Below the body's `process`, the path the server looks up leads into
      the `arguments` the client put there. */
  lemma BodyReachesArguments(title: string, collectionId: string, spatial: Json, temporal: Json, rest: seq<string>)
    ensures LookupPath(JobBody(title, collectionId, spatial, temporal), JobStore.LoadArguments + rest)
            == LookupPath(LoadArgumentsJson(collectionId, spatial, temporal), rest)
  {
    var arguments := LoadArgumentsJson(collectionId, spatial, temporal);
    assert JobStore.LoadArguments + rest == ["process"] + (["process_graph", "load_data", "arguments"] + rest);
    BodyPath(JobBody(title, collectionId, spatial, temporal), ["process_graph", "load_data", "arguments"] + rest);
    ProcessReachesArguments(arguments, rest);
  }

  /** Looking up a path below the `arguments` of a process. */
  lemma ProcessReachesArguments(arguments: Json, rest: seq<string>)
    ensures LookupPath(ProcessJson(arguments), ["process_graph", "load_data", "arguments"] + rest)
            == LookupPath(arguments, rest)
  {
    var p := ["process_graph", "load_data", "arguments"] + rest;
    var node := JObj(map["process_id" := JStr("load_collection"), "arguments" := arguments]);
    var graph := JObj(map["load_data" := node]);
    assert p[0] == "process_graph" && p[1..][0] == "load_data" && p[1..][1..][0] == "arguments";
    assert p[1..][1..][1..] == rest;
    assert LookupPath(ProcessJson(arguments), p) == LookupPath(graph, p[1..]);
    assert LookupPath(graph, p[1..]) == LookupPath(node, p[1..][1..]);
  }

  /** Looking up a path below the `process` of a dict. */
  lemma BodyPath(j: Json, rest: seq<string>)
    requires j.JObj? && "process" in j.fields
    ensures LookupPath(j, ["process"] + rest) == LookupPath(j.fields["process"], rest)
  {
    assert (["process"] + rest)[1..] == rest;
  }

  // ---------------------------------------------------------------------
  // Responses

  /** What `requests.request` produced: a response (status, reason phrase,
      raw content and the outcome of decoding it as JSON), or a
      `RequestException` raised before any response. */
  datatype Transport =
    | Delivered(statusCode: nat, reason: string, content: string, decoded: Result<Json, string>)
    | Unreachable(message: string)

  /** The message of the `OpenEOApiError` that wraps a `RequestException`. */
  function ApiFailure(detail: string): string {
    "API request failed: " + detail
  }

  /** The `HTTPError` text of `raise_for_status`, when the status is an
      error. */
  function StatusError(statusCode: nat, reason: string, url: string): (e: Option<string>)
    ensures e.Some? <==> 400 <= statusCode < 600
  {
    if 400 <= statusCode < 500 then
      Some(NatToString(statusCode) + " Client Error: " + reason + " for url: " + url)
    else if 500 <= statusCode < 600 then
      Some(NatToString(statusCode) + " Server Error: " + reason + " for url: " + url)
    else None
  }

  /** `make_request`: `Ok` holds the decoded body, with `JNull` for Python's
      `None` (an empty body, or the JSON `null`); `Err` holds the message of
      the `OpenEOApiError` raised. */
  function MakeRequest(c: Client, request: Request, t: Transport): (r: Result<Json, string>)
    ensures r.Err? ==> exists detail :: r.error == ApiFailure(detail)
    ensures r.Ok? <==>
      t.Delivered? && !(400 <= t.statusCode < 600) && (t.content == [] || t.decoded.Ok?)
    ensures r.Ok? && t.content == [] ==> r.value == JNull
    ensures r.Ok? && t.content != [] ==> r.value == t.decoded.value
    ensures t.Delivered? && 400 <= t.statusCode < 600 ==>
      r == Err(ApiFailure(StatusError(t.statusCode, t.reason, RequestUrl(c, request.endpoint)).value))
  {
    match t
    case Unreachable(message) => Err(ApiFailure(message))
    case Delivered(statusCode, reason, content, decoded) =>
      match StatusError(statusCode, reason, RequestUrl(c, request.endpoint))
      case Some(e) => Err(ApiFailure(e))
      case None =>
        if content == [] then Ok(JNull)
        else
          match decoded
          case Ok(j) => Ok(j)
          case Err(e) => Err(ApiFailure(e))
  }

  /** `delete_job`: true exactly when the reply carried no value. */
  function DeleteJobSucceeded(c: Client, jobId: string, t: Transport): (r: Result<bool, string>)
    ensures r.Ok? <==> MakeRequest(c, DeleteJob(jobId), t).Ok?
    ensures r.Err? ==> r.error == MakeRequest(c, DeleteJob(jobId), t).error
    ensures r == Ok(true) <==>
      t.Delivered? && !(400 <= t.statusCode < 600) && (t.content == [] || t.decoded == Ok(JNull))
  {
    var body :- MakeRequest(c, DeleteJob(jobId), t);
    Ok(body == JNull)
  }

  /** Against the server's `DELETE /jobs/<id>` (204 with no body when the
      job existed, 404 otherwise) `delete_job` never returns false: a
      deleted job gives true and a missing one raises. */
  lemma DeleteAgainstServer(c: Client, jobId: string, reason: string, content: string, decoded: Result<Json, string>)
    ensures DeleteJobSucceeded(c, jobId, Delivered(204, reason, [], decoded)) == Ok(true)
    ensures DeleteJobSucceeded(c, jobId, Delivered(404, reason, content, decoded))
            == Err(ApiFailure(NotFoundError(reason, RequestUrl(c, "jobs/" + jobId))))
  {
    NotFoundText(reason, RequestUrl(c, "jobs/" + jobId));
  }

  /** The `HTTPError` text of a 404. */
  function NotFoundError(reason: string, url: string): string {
    "404 Client Error: " + reason + " for url: " + url
  }

  lemma NotFoundText(reason: string, url: string)
    ensures StatusError(404, reason, url) == Some(NotFoundError(reason, url))
  {
    assert NatToString(4) == "4";
    assert NatToString(40) == "40";
    assert NatToString(404) == "404";
    assert NatToString(404) + " Client Error: " == "404 Client Error: ";
  }

  // ---------------------------------------------------------------------
  // Validators

  /** The dict `validate_spatial_extent` returns. */
  datatype SpatialExtent = SpatialExtent(west: real, east: real, north: real, south: real)

  const LongitudeRange := "Longitude must be between -180 and 180 degrees"
  const LatitudeRange := "Latitude must be between -90 and 90 degrees"
  const WestOfEast := "Western boundary must be less than eastern boundary"
  const SouthOfNorth := "Southern boundary must be less than northern boundary"

  predicate LongitudesInRange(west: real, east: real) {
    -180.0 <= west <= 180.0 && -180.0 <= east <= 180.0
  }

  predicate LatitudesInRange(south: real, north: real) {
    -90.0 <= south <= 90.0 && -90.0 <= north <= 90.0
  }

  /** A bounding box every check accepts. */
  predicate WellFormedBox(e: SpatialExtent) {
    LongitudesInRange(e.west, e.east) && LatitudesInRange(e.south, e.north) &&
    e.west < e.east && e.south < e.north
  }

  /** `validate_spatial_extent`: the four values unchanged when the box is
      well formed, else the `ValueError` of the first failing check, in the
      order longitude, latitude, west before east, south before north. */
  function ValidateSpatialExtent(west: real, east: real, north: real, south: real): (r: Result<SpatialExtent, PyError>)
    ensures r.Ok? <==> WellFormedBox(SpatialExtent(west, east, north, south))
    ensures r.Ok? ==> r.value == SpatialExtent(west, east, north, south)
    ensures !LongitudesInRange(west, east) ==> r == Err(ValueError(LongitudeRange))
    ensures LongitudesInRange(west, east) && !LatitudesInRange(south, north) ==>
      r == Err(ValueError(LatitudeRange))
    ensures LongitudesInRange(west, east) && LatitudesInRange(south, north) && west >= east ==>
      r == Err(ValueError(WestOfEast))
    ensures LongitudesInRange(west, east) && LatitudesInRange(south, north) && west < east && south >= north ==>
      r == Err(ValueError(SouthOfNorth))
  {
    if !LongitudesInRange(west, east) then Err(ValueError(LongitudeRange))
    else if !LatitudesInRange(south, north) then Err(ValueError(LatitudeRange))
    else if west >= east then Err(ValueError(WestOfEast))
    else if south >= north then Err(ValueError(SouthOfNorth))
    else Ok(SpatialExtent(west, east, north, south))
  }

  /** The extent as the JSON dict sent in a job body. */
  function SpatialJson(e: SpatialExtent): (j: Json)
    ensures Subscript(j, "west") == Ok(JNum(e.west)) && Subscript(j, "east") == Ok(JNum(e.east))
    ensures Subscript(j, "north") == Ok(JNum(e.north)) && Subscript(j, "south") == Ok(JNum(e.south))
    ensures j.JObj? && j.fields.Keys == {"west", "east", "north", "south"}
  {
    JObj(map["west" := JNum(e.west), "east" := JNum(e.east), "north" := JNum(e.north), "south" := JNum(e.south)])
  }

  /** Swapping the corners of a box whose only fault is their order gives a
      box the validator accepts. */
  lemma SwappedCornersAccepted(west: real, east: real, north: real, south: real)
    requires LongitudesInRange(west, east) && LatitudesInRange(south, north)
    requires west != east && south != north
    ensures ValidateSpatialExtent(
              if west < east then west else east, if west < east then east else west,
              if south < north then north else south, if south < north then south else north).Ok?
  {
  }

  const StartNotBeforeEnd := "Start date must be before end date"

  /** `validate_temporal_extent` on two instants (already parsed): the pair
      rendered with `iso` and suffixed `Z` when the start is strictly
      earlier, else a `ValueError`. */
  function ValidateTemporalExtent(start: int, end: int, iso: int -> string): (r: Result<seq<string>, PyError>)
    ensures r.Ok? <==> start < end
    ensures r.Ok? ==> |r.value| == 2 && r.value[0] == iso(start) + "Z" && r.value[1] == iso(end) + "Z"
    ensures r.Err? ==> r.error == ValueError(StartNotBeforeEnd)
  {
    if start >= end then Err(ValueError(StartNotBeforeEnd))
    else Ok([iso(start) + "Z", iso(end) + "Z"])
  }

  /** Of two distinct instants exactly one order is accepted. */
  lemma TemporalExtentOneOrder(a: int, b: int, iso: int -> string)
    requires a != b
    ensures ValidateTemporalExtent(a, b, iso).Ok? != ValidateTemporalExtent(b, a, iso).Ok?
  {
  }

  /** The validated extent as the JSON list sent in a job body. */
  function TemporalJson(extent: seq<string>): (j: Json)
    ensures j.JArr? && |j.items| == |extent|
    ensures forall i | 0 <= i < |extent| :: IndexAt(j, i) == Ok(JStr(extent[i]))
  {
    JArr(seq(|extent|, i requires 0 <= i < |extent| => JStr(extent[i])))
  }
}
