/** The `delete-job` command of interface/cli.py: it sends the client's
    DELETE request and reports success when the reply carried a value. */
module Cli {
  import opened Results
  import opened PyJson
  import Client

  /** Whether the command prints its success line, as written: when the
      decoded reply is not `None`. `Err` is the `OpenEOApiError` that
      escapes the command. */
  function DeleteReportsSuccess(c: Client.Client, jobId: string, t: Client.Transport): (r: Result<bool, string>)
    ensures r.Ok? <==> Client.MakeRequest(c, Client.DeleteJob(jobId), t).Ok?
    ensures r.Ok? ==> (r.value <==> Client.MakeRequest(c, Client.DeleteJob(jobId), t).value != JNull)
  {
    var response :- Client.MakeRequest(c, Client.DeleteJob(jobId), t);
    Ok(response != JNull)
  }

  /** The server answers a successful delete with 204 and no body, so the
      success line is never printed for it. */
  lemma DeletedJobNotReported(c: Client.Client, jobId: string, reason: string, decoded: Result<Json, string>)
    ensures DeleteReportsSuccess(c, jobId, Client.Delivered(204, reason, [], decoded)) == Ok(false)
  {
  }

  /** The evidently intended command: report success exactly when
      `delete_job` returns true. */
  function DeleteReportsSuccessIntended(c: Client.Client, jobId: string, t: Client.Transport): (r: Result<bool, string>)
    ensures r.Ok? <==> Client.MakeRequest(c, Client.DeleteJob(jobId), t).Ok?
    ensures r == Ok(true) <==>
      t.Delivered? && !(400 <= t.statusCode < 600) && (t.content == [] || t.decoded == Ok(JNull))
  {
    Client.DeleteJobSucceeded(c, jobId, t)
  }

  /** The intended command reports the server's successful delete. */
  lemma DeletedJobReported(c: Client.Client, jobId: string, reason: string, decoded: Result<Json, string>)
    ensures DeleteReportsSuccessIntended(c, jobId, Client.Delivered(204, reason, [], decoded)) == Ok(true)
  {
    Client.DeleteAgainstServer(c, jobId, reason, [], decoded);
  }
}
