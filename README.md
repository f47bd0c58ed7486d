# rasdaman OpenEO API: a Dafny model of its bookkeeping and client logic

The system is a small OpenEO API server written in Flask, in front of a
rasdaman raster backend, together with a Python client and a command-line
interface. This project models the parts of it that do not talk to the
network or to the backend:

- **The server's registries** (`app.py`). They are two dictionaries:
  `jobs_store` for jobs and `user_process_graphs` for process graphs.
  `JobStore.Store` is a class holding both as maps. Each HTTP handler that
  works on them is a method that changes the maps and returns the status
  code and body Flask would send:
  - job creation, read, merge (PATCH), delete, run (`start_job`) and the
    result lookup;
  - saving, reading, merging and deleting process graphs.

  Ids come from the store size: `job-(n+1)` and `pg-(n+1)`. A job's status
  goes `created`, then `running`, then `finished` or `error`.
- **`construct_wcps_query`** (`Wcps`). It builds a WCPS query string from a
  collection id and optional temporal and spatial extents. No code in the
  repository calls it.
- **The client** (`interface/__init__.py`, module `Client`):
  - the base URL, with trailing slashes removed, and how request URLs are
    joined;
  - the requests the endpoint methods send;
  - how `make_request` turns a response into a value or an
    `OpenEOApiError`;
  - `delete_job`;
  - the spatial and temporal validators.
- **The CLI** (`interface/cli.py`, modules `Pagination` and `Cli`):
  - the paginated timestamp picker (`display_timestamps_paginated`), as a
    method with a loop, proved against a specification function `Run`;
  - how `create_job` turns one or two picks into a temporal extent;
  - the `delete-job` command.

Python values are modelled in `PyJson`:
  - **JSON values.** A dict is a `map<string, Json>`. A job record is such a
    map, because PATCH merges arbitrary keys into it. A number written
    without fraction or exponent decodes to an `int` (`JInt`), any other
    number to a `float` (`JNum`).
  - **Python exceptions.** `KeyError`, `TypeError`, `AttributeError`,
    `IndexError` and `ValueError` are modelled with the messages CPython
    gives them. Where CPython quotes a text with `repr` (the key of a
    `KeyError`, the argument of a failed conversion), the quoting is
    modelled too (`Text.Repr`).
  - **dict operations.** Subscripting and `dict.update` are modelled the way
    Python evaluates them.

`Text` models the string operations the code relies on: `rstrip`, `lstrip`,
`split` and `join` on one character, decimal rendering and `repr` of a
string.

Anything that comes from outside is a parameter of the operation that uses
it:
  - the backend's answer to `start_job` (`JobStore.BackendOutcome`);
  - the HTTP transport of the client (`Client.Transport`);
  - the clock (the `created` and `execution_time` texts, and the client's
    default week);
  - Python's `float()` of a string;
  - ISO timestamp parsing and rendering;
  - keyboard input (a sequence of `Pagination.Command`).

## Model

| member | source | states |
|---|---|---|
| Text.NatToString | rasdaman-WCS-openEO_API_implementation/app.py:528 | the decimal rendering of an id number is nonempty, all digits, and starts with `0` only for zero |
| Text.DecimalRoundTrip | rasdaman-WCS-openEO_API_implementation/app.py:528 | reading the rendered digits back gives the number, so rendering is injective |
| Text.PrefixedNumberInjective | rasdaman-WCS-openEO_API_implementation/app.py:417 | two prefixed ids built from different numbers differ |
| Text.RStrip | rasdaman-WCS-openEO_API_implementation/interface/__init__.py:15 | `rstrip` keeps a prefix that does not end in the character and drops only that character |
| Text.LStrip | rasdaman-WCS-openEO_API_implementation/interface/__init__.py:34 | `lstrip` keeps a suffix that does not start with the character and drops only that character |
| Text.RStripPadded | rasdaman-WCS-openEO_API_implementation/interface/__init__.py:15 | extra trailing copies of the character do not change the result |
| Text.LStripPadded | rasdaman-WCS-openEO_API_implementation/interface/__init__.py:34 | extra leading copies of the character do not change the result |
| Text.Split | rasdaman-WCS-openEO_API_implementation/app.py:593 | `split` gives one more piece than there are separators, and no piece holds a separator |
| Text.JoinSplit | rasdaman-WCS-openEO_API_implementation/app.py:593 | joining the pieces of a split gives back the text |
| Text.SplitJoin | rasdaman-WCS-openEO_API_implementation/app.py:593 | splitting a join of separator-free pieces gives back the pieces |
| Text.SplitNoSeparator | rasdaman-WCS-openEO_API_implementation/app.py:593 | text without a separator splits into itself alone |
| Text.SplitAfterPiece | rasdaman-WCS-openEO_API_implementation/app.py:593 | splitting `a/b` yields `a` and then the pieces of `b` |
| Text.TwoSegments | rasdaman-WCS-openEO_API_implementation/interface/__init__.py:113 | a path `a/b` of slash-free parts has exactly the segments `a`, `b` |
| Text.ThreeSegments | rasdaman-WCS-openEO_API_implementation/interface/__init__.py:105 | a path `a/b/c` of slash-free parts has exactly the segments `a`, `b`, `c` |
| Text.Repr | rasdaman-WCS-openEO_API_implementation/app.py:680 | `repr` encloses the text in one quote character on both ends: double quotes exactly when the text holds a single quote and no double quote, single quotes otherwise |
| Text.EscapePlain | rasdaman-WCS-openEO_API_implementation/app.py:680 | characters that are neither a backslash, the quote nor a character `repr` writes in hex are written as they are |
| Text.EscapeLonger | rasdaman-WCS-openEO_API_implementation/app.py:680 | a text with a backslash, the quote or such a character grows when escaped |
| Text.ReprPlain | rasdaman-WCS-openEO_API_implementation/app.py:680 | `repr` is the text between single quotes exactly when it holds no backslash, no single quote and no character written in hex |
| PyJson.Subscript | rasdaman-WCS-openEO_API_implementation/app.py:530 | `j[key]` succeeds exactly on a dict holding the key and returns its value. A dict without the key raises `KeyError` carrying the key. Anything else raises `TypeError`, with CPython's text for a list, for a string and for the other types |
| PyJson.KeyErrorQuotesKey | rasdaman-WCS-openEO_API_implementation/app.py:680 | `str` of a `KeyError` for a key of plain characters is the key in single quotes |
| PyJson.LookupPathAppend | rasdaman-WCS-openEO_API_implementation/app.py:530 | subscripting along a longer chain is subscripting along its first part and then the rest |
| PyJson.LookupPath | rasdaman-WCS-openEO_API_implementation/app.py:626 | a chain of subscripts succeeds only if the first one does; an empty chain returns the value |
| PyJson.IndexAt | rasdaman-WCS-openEO_API_implementation/app.py:709 | `j[0]` succeeds exactly on a long enough list or string, and returns that element of a list and that one character, as a string, of a string |
| PyJson.Get | rasdaman-WCS-openEO_API_implementation/app.py:712 | `.get` succeeds exactly on a dict and returns the value or the default |
| PyJson.Merge | rasdaman-WCS-openEO_API_implementation/app.py:579 | `dict.update`: the keys of both, the update's value winning, the others kept |
| PyJson.ToFloat | rasdaman-WCS-openEO_API_implementation/app.py:704-705 | `float()` keeps a float, converts an int exactly and reads a numeric string with the given parser; it succeeds exactly on an int, a float, a boolean or a string the parser accepts |
| JobStore.JobIdInjective | rasdaman-WCS-openEO_API_implementation/app.py:528 | different store sizes give different job ids |
| JobStore.GraphIdInjective | rasdaman-WCS-openEO_API_implementation/app.py:417 | different store sizes give different process graph ids |
| JobStore.JobIdFreshWhenDense | rasdaman-WCS-openEO_API_implementation/app.py:528 | while the store holds exactly `job-1` to `job-n`, the next id is free |
| JobStore.CreationAfterDeletionReusesId | rasdaman-WCS-openEO_API_implementation/app.py:528-545 | after `job-1` and `job-2` are created and `job-1` is deleted, the next id is `job-2`, which is still stored, so the new job replaces it |
| JobStore.CollectionIdOf | rasdaman-WCS-openEO_API_implementation/app.py:530 | the collection id is the `id` of the load_data arguments; the lookup succeeds exactly when the body is a dict and the arguments exist and hold `id` |
| JobStore.NewJob | rasdaman-WCS-openEO_API_implementation/app.py:532-543 | a new record has exactly the ten creation keys, its own id, status `created`, the looked-up collection id, the body's `process`, and the creation time suffixed `Z` |
| JobStore.ExtentLookupFinds | rasdaman-WCS-openEO_API_implementation/app.py:626-628 | the lookups succeed exactly when the load_data arguments are a dict holding both extents, and return those two values |
| JobStore.ExtentLookupIgnoresStatus | rasdaman-WCS-openEO_API_implementation/app.py:623-628 | setting the status to `running` first does not change what the lookups find |
| JobStore.StartedJob | rasdaman-WCS-openEO_API_implementation/app.py:623-681 | after a run the status is `finished` or `error`, never `running`. It is `finished` exactly when no exception was raised and the backend answered 200, and then `result` is `{'data': payload}`. On `error` the `error` key is set |
| JobStore.StartedJobError | rasdaman-WCS-openEO_API_implementation/app.py:665-681 | on `error` the `error` key holds `str(e)` of the exception raised, or the backend's reply text when it answered with another status than 200; every run that reached the backend records the elapsed time |
| JobStore.StartedJobKeys | rasdaman-WCS-openEO_API_implementation/app.py:623-681 | a run keeps every key the job had and changes only status, result, error and execution_time |
| JobStore.FailedRunKeepsResult | rasdaman-WCS-openEO_API_implementation/app.py:665-681 | a failed run leaves `result` as it was, and a run ended by an exception also leaves `execution_time` as it was |
| JobStore.StartReply | rasdaman-WCS-openEO_API_implementation/app.py:674-681 | 202 with the updated job whenever nothing raised, whatever the backend's status; 500 otherwise |
| JobStore.StartReplyFailed | rasdaman-WCS-openEO_API_implementation/app.py:677-681 | an exception is answered with 500 and the body `{"error": str(e)}` |
| JobStore.RunJob | rasdaman-WCS-openEO_API_implementation/app.py:623-681 | the step-by-step updates of `start_job` give exactly the run record and the run reply |
| JobStore.SuccessfulRerunKeepsOldError | rasdaman-WCS-openEO_API_implementation/app.py:665-667 | a successful rerun of a failed job leaves its old `error` in place |
| JobStore.StacItemBuilt | rasdaman-WCS-openEO_API_implementation/app.py:697-733 | the STAC item is built exactly when the west and north coordinates convert to float, the temporal extent has a first element, and the result supports `.get` |
| JobStore.FinishedJobHasNoTemperature | rasdaman-WCS-openEO_API_implementation/app.py:667 | a job finished by `start_job` reports a null temperature |
| JobStore.StoreUpdate | rasdaman-WCS-openEO_API_implementation/app.py:545 | writing a record that keeps the creation keys, or whose status is known, keeps the store invariants |
| JobStore.Store.constructor | rasdaman-WCS-openEO_API_implementation/app.py:17-42 | the store starts with no jobs and with the built-in `ndvi_1` graph |
| JobStore.Store.CreateJob | rasdaman-WCS-openEO_API_implementation/app.py:526-550 | stores the new record under `job-(size+1)`, overwriting a job already stored there (the size then stays the same), and answers 201 with it. A body without the collection id raises and changes nothing |
| JobStore.Store.GetJob | rasdaman-WCS-openEO_API_implementation/app.py:555-560 | 200 with the record when the job exists, else 404 `Job <id> not found` |
| JobStore.Store.PatchJob | rasdaman-WCS-openEO_API_implementation/app.py:562-582 | a known job has the updates merged in, no other job changes, and the reply is 200 with the merged record. An unknown id gives 404 and changes nothing |
| JobStore.Store.DeleteJob | rasdaman-WCS-openEO_API_implementation/app.py:570-589 | removes exactly that id and answers 204, or answers 404 and changes nothing |
| JobStore.Store.StartJob | rasdaman-WCS-openEO_API_implementation/app.py:612-681 | an unknown id gives 404 and changes nothing. A known job is replaced by its run record, and the reply is the run reply. Nothing else changes |
| JobStore.Store.GetJobResults | rasdaman-WCS-openEO_API_implementation/app.py:684-745 | 404 for an unknown id and 400 for any status but `finished`, both without changes. A finished job gives 200 with its STAC item. If building the item raises, the job is marked `error` with the internal error (code, message and the int status code 500) and the reply is 500 with that error |
| JobStore.Store.SaveProcessGraph | rasdaman-WCS-openEO_API_implementation/app.py:415-423 | stores the body under `pg-(size+1)` with that id written into it, and answers 201. A body that is not a dict is stored first and then the write raises |
| JobStore.Store.GetProcessGraph | rasdaman-WCS-openEO_API_implementation/app.py:398-413 | 200 with a stored graph that is truthy, else 404 |
| JobStore.Store.UpdateProcessGraph | rasdaman-WCS-openEO_API_implementation/app.py:426-440 | merges the updates into a stored dict graph. An unknown id gives 404 and changes nothing. A stored non-dict raises `AttributeError` |
| JobStore.Store.DeleteProcessGraph | rasdaman-WCS-openEO_API_implementation/app.py:443-455 | removes exactly that id and answers 204, or answers 404 and changes nothing |
| JobStore.SaveAfterDeletionReplacesGraph | rasdaman-WCS-openEO_API_implementation/app.py:415-420 | as written, once `ndvi_1` is deleted after the first save, the id of the next save is `pg-2`, which is still stored, so that graph is replaced |
| JobStore.FreshGraphNumber | rasdaman-WCS-openEO_API_implementation/app.py:416-417 | the intended id is not taken; it is the code's `pg-(size+1)` whenever that is free, and otherwise the first free id after it |
| JobStore.FirstFreeGraphNumber | rasdaman-WCS-openEO_API_implementation/app.py:416-417 | the search returns the first number from its start whose id is not taken |
| JobStore.FreeGraphIdExists | rasdaman-WCS-openEO_API_implementation/app.py:416-417 | among the `size+1` ids from any start, at least one is not taken |
| JobStore.Store.SaveProcessGraphFresh | rasdaman-WCS-openEO_API_implementation/app.py:415-423 | the intended save stores the body under an id no stored graph has and keeps every stored graph, with the replies of `save_process_graph` |
| JobStore.FirstSavedGraphId | rasdaman-WCS-openEO_API_implementation/app.py:417 | next to the built-in graph, the first saved graph is `pg-2` |
| Wcps.ParseInterval | rasdaman-WCS-openEO_API_implementation/app.py:591-594 | succeeds only on text with exactly one `/` whose two sides parse; a wrong number of parts raises the unpacking `ValueError` |
| Wcps.ParsedIntervalShape | rasdaman-WCS-openEO_API_implementation/app.py:593 | an accepted interval is `start/end` with no other slash |
| Wcps.ConstructWcpsQuery | rasdaman-WCS-openEO_API_implementation/app.py:596-609 | every query starts with `for data in (<id>)` and ends with the GTiff encode. It fails exactly when a given temporal extent does not parse or a given spatial extent does not have four values |
| Wcps.QueryWithoutExtents | rasdaman-WCS-openEO_API_implementation/app.py:597-609 | without extents the query is the head followed by the encode |
| Wcps.EmptyExtentsIgnored | rasdaman-WCS-openEO_API_implementation/app.py:599-603 | empty extents count as absent |
| Wcps.TemporalQuery | rasdaman-WCS-openEO_API_implementation/app.py:599-601 | `a/b` adds one time clause bounded by the normalised `a` and `b` |
| Wcps.IntervalTime | rasdaman-WCS-openEO_API_implementation/app.py:599-601 | the interval `a/b` gives the time clause of the normalised `a` and `b` |
| Wcps.SpatialQuery | rasdaman-WCS-openEO_API_implementation/app.py:603-606 | four values are read as west, south, east, north: the first and third bound longitude, the second and fourth latitude |
| Wcps.BothExtentsQuery | rasdaman-WCS-openEO_API_implementation/app.py:596-609 | with both extents the query is the head, the time clause, the spatial clause and the encode, in that order |
| Wcps.MalformedIntervalRejected | rasdaman-WCS-openEO_API_implementation/app.py:593 | an interval without `/` raises the unpacking error |
| Client.DefaultClient | rasdaman-WCS-openEO_API_implementation/interface/__init__.py:8-15 | the default base URL `http://localhost:5000` is kept as it is, so `jobs` is requested at `http://localhost:5000/jobs` |
| Client.NewClient | rasdaman-WCS-openEO_API_implementation/interface/__init__.py:15 | the stored base URL is the given one with all trailing slashes removed |
| Client.NewClientIgnoresTrailingSlashes | rasdaman-WCS-openEO_API_implementation/interface/__init__.py:15 | extra trailing slashes give the same client |
| Client.RequestUrl | rasdaman-WCS-openEO_API_implementation/interface/__init__.py:34 | the URL is the base URL, one slash, then the endpoint with only its leading slashes removed |
| Client.RequestUrlIgnoresLeadingSlashes | rasdaman-WCS-openEO_API_implementation/interface/__init__.py:34 | extra leading slashes on the endpoint give the same URL |
| Client.OneSlashBetween | rasdaman-WCS-openEO_API_implementation/interface/__init__.py:15-34 | however many slashes the caller puts between the base URL and the endpoint, the URL holds exactly one |
| Client.GetCollections | rasdaman-WCS-openEO_API_implementation/interface/__init__.py:45-47 | GET with no body of a path of one segment |
| Client.ListingUrls | rasdaman-WCS-openEO_API_implementation/interface/__init__.py:45-59 | the three listings are requested at the base URL followed by `/collections`, `/processes` and `/jobs` |
| Client.GetCollectionDetails | rasdaman-WCS-openEO_API_implementation/interface/__init__.py:49-51 | GET with no body of the path with segments `collections` and the id |
| Client.GetProcesses | rasdaman-WCS-openEO_API_implementation/interface/__init__.py:53-55 | GET with no body of a path of one segment |
| Client.GetJobs | rasdaman-WCS-openEO_API_implementation/interface/__init__.py:57-59 | GET with no body of a path of one segment |
| Client.StartJob | rasdaman-WCS-openEO_API_implementation/interface/__init__.py:103-105 | POST with no body to the path with segments `jobs`, the id and `results` |
| Client.GetJobResults | rasdaman-WCS-openEO_API_implementation/interface/__init__.py:107-109 | GET with no body of the same path |
| Client.DeleteJob | rasdaman-WCS-openEO_API_implementation/interface/__init__.py:111-113 | DELETE with no body of the path with segments `jobs` and the id |
| Client.JobRequestsInjective | rasdaman-WCS-openEO_API_implementation/interface/__init__.py:103-113 | different job ids give different requests |
| Client.CreateJob | rasdaman-WCS-openEO_API_implementation/interface/__init__.py:61-101 | POST to `jobs` of the job body. A temporal extent of `None`, given or defaulted, is replaced by the given last week, both ends suffixed `Z`; any other extent is sent as it is |
| Client.ClientJobCollection | rasdaman-WCS-openEO_API_implementation/interface/__init__.py:85-99 | the server reads the collection id where the client put it |
| Client.ClientJobExtents | rasdaman-WCS-openEO_API_implementation/interface/__init__.py:85-99 | the job the server stores for a client body yields both extents to the lookups that open `start_job` |
| Client.BodyReachesArguments | rasdaman-WCS-openEO_API_implementation/interface/__init__.py:85-99 | the path the server looks up in a client body leads into the arguments the client built |
| Client.StoredProcessReachesArguments | rasdaman-WCS-openEO_API_implementation/interface/__init__.py:85-99 | a stored job whose `process` is a client-built process leads the server's lookup to that process's arguments |
| Client.ProcessReachesArguments | rasdaman-WCS-openEO_API_implementation/interface/__init__.py:87-95 | the body's graph leads through `process_graph`, `load_data` and `arguments` |
| Client.StatusError | rasdaman-WCS-openEO_API_implementation/interface/__init__.py:38 | `raise_for_status` fails exactly for status codes 400 to 599 |
| Client.MakeRequest | rasdaman-WCS-openEO_API_implementation/interface/__init__.py:34-43 | a value is returned exactly for a response that is not an HTTP error and whose content is empty (`None`) or decodes. Every failure is an `OpenEOApiError` prefixed `API request failed: `, and for an HTTP error it carries `raise_for_status`'s text |
| Client.DeleteJobSucceeded | rasdaman-WCS-openEO_API_implementation/interface/__init__.py:111-113 | `delete_job` raises exactly the error `make_request` raises, and otherwise returns true exactly when the DELETE got a non-error status with empty content or a JSON null body |
| Client.DeleteAgainstServer | rasdaman-WCS-openEO_API_implementation/interface/__init__.py:111-113 | against the server's replies, `delete_job` is true for 204 and raises for 404, so it never returns false |
| Client.NotFoundText | rasdaman-WCS-openEO_API_implementation/interface/__init__.py:38 | the text `raise_for_status` gives a 404 |
| Client.ValidateSpatialExtent | rasdaman-WCS-openEO_API_implementation/interface/__init__.py:151-168 | returns the four values unchanged exactly when the box is well formed; otherwise the error of the first failing check, in the order longitude, latitude, west before east, south before north |
| Client.SpatialJson | rasdaman-WCS-openEO_API_implementation/interface/__init__.py:163-168 | the returned dict has exactly the four keys, each holding its input |
| Client.SwappedCornersAccepted | rasdaman-WCS-openEO_API_implementation/interface/__init__.py:157-161 | in-range corners given in the wrong order are accepted once swapped |
| Client.ValidateTemporalExtent | rasdaman-WCS-openEO_API_implementation/interface/__init__.py:193-199 | succeeds exactly when start is strictly before end, returning the start and then the end, each rendered and suffixed `Z`; otherwise `Start date must be before end date` |
| Client.TemporalExtentOneOrder | rasdaman-WCS-openEO_API_implementation/interface/__init__.py:193 | of two distinct instants exactly one order is accepted |
| Client.TemporalJson | rasdaman-WCS-openEO_API_implementation/interface/__init__.py:196-199 | the JSON list holds the extent's texts in order |
| Pagination.TotalPages | rasdaman-WCS-openEO_API_implementation/interface/cli.py:101 | the page count is the ceiling of length over page size: enough pages for everything, with the last one not empty |
| Pagination.TotalPagesPositive | rasdaman-WCS-openEO_API_implementation/interface/cli.py:101 | there is a page exactly when the list is not empty |
| Pagination.WindowOf | rasdaman-WCS-openEO_API_implementation/interface/cli.py:106-107 | page `p` starts at `(p-1)*page_size` |
| Pagination.IndexOnPage | rasdaman-WCS-openEO_API_implementation/interface/cli.py:101-107 | every timestamp is listed: index `i` lies in the window of page `i // page_size + 1`, which is in range |
| Pagination.PageLength | rasdaman-WCS-openEO_API_implementation/interface/cli.py:106-107 | every page before the last shows exactly `page_size` timestamps, and the last ends at the end of the list |
| Pagination.WindowInRange | rasdaman-WCS-openEO_API_implementation/interface/cli.py:106-107 | every page in range shows a slice within the list, at most one page long, and not empty when the list is not |
| Pagination.Listing | rasdaman-WCS-openEO_API_implementation/interface/cli.py:110-111 | the listed lines are the slice's elements, numbered from `start+1` |
| Pagination.ListingNumbersSelect | rasdaman-WCS-openEO_API_implementation/interface/cli.py:110-140 | entering a listed number at `s` picks the element listed under it |
| Pagination.FirstInRange | rasdaman-WCS-openEO_API_implementation/interface/cli.py:130-139 | click's range prompt accepts the first entry in range, and nothing exactly when no entry is in range |
| Pagination.Step | rasdaman-WCS-openEO_API_implementation/interface/cli.py:125-142 | a round either moves to a page, which stays in range when it started in range, or ends the picker; a selection is an index into the list |
| Pagination.Run | rasdaman-WCS-openEO_API_implementation/interface/cli.py:104-142 | a selection is an index into the list, and the first window shown is the current page's |
| Pagination.RunWindowsValid | rasdaman-WCS-openEO_API_implementation/interface/cli.py:125-134 | from a page in range, `n`, `p` and `g` keep the page between 1 and the page count, and every window shown is valid |
| Pagination.QuitCancels | rasdaman-WCS-openEO_API_implementation/interface/cli.py:125-142 | after any number of `n` and `p`, `q` cancels |
| Pagination.DisplayTimestampsPaginated | rasdaman-WCS-openEO_API_implementation/interface/cli.py:99-142 | the loop ends as `Run` says and shows the windows `Run` lists: every page is in range, every window valid, and a selection is an index into the list |
| Pagination.ChooseTemporalExtent | rasdaman-WCS-openEO_API_implementation/interface/cli.py:158-204 | an empty list aborts before any picker. Otherwise an extent has start index at most end index, both within the list, and holds the two timestamps. A single point gives equal indices. In range mode the end index is the start index plus the index picked among the timestamps from the start on |
| Cli.DeleteReportsSuccess | rasdaman-WCS-openEO_API_implementation/interface/cli.py:303-307 | as written, the command prints its success line exactly when the reply decoded to something other than `None` |
| Cli.DeletedJobNotReported | rasdaman-WCS-openEO_API_implementation/interface/cli.py:305-307 | for the server's 204 reply to a successful delete, the success line is not printed |
| Cli.DeleteReportsSuccessIntended | rasdaman-WCS-openEO_API_implementation/interface/cli.py:303-307 | reports success exactly when `delete_job` returns true |
| Cli.DeletedJobReported | rasdaman-WCS-openEO_API_implementation/interface/cli.py:305-307 | the intended command reports the server's successful delete |

## Findings

| source | as written | input that shows it | evidently intended | confidence | as-written member | corrected member |
|---|---|---|---|---|---|---|
| rasdaman-WCS-openEO_API_implementation/interface/cli.py:305-307 | the `delete-job` command prints `successfully deleted` only when `make_request` returns something other than `None` | deleting an existing job: the server answers 204 with an empty body, `make_request` returns `None`, and nothing is printed (a missing job raises instead) | print the line when the reply is empty, that is when `delete_job` returns true | medium, not executed | Cli.DeletedJobNotReported | Cli.DeletedJobReported |
| rasdaman-WCS-openEO_API_implementation/app.py:415-420 | `save_process_graph`, commented as generating a unique id, takes `pg-(len+1)` whatever is stored | save one graph (`pg-2`), delete `ndvi_1`, save again: the store size is 1, the new id is `pg-2`, and the first saved graph is replaced | give the new graph an id that is not stored | medium, not executed | JobStore.SaveAfterDeletionReplacesGraph | JobStore.Store.SaveProcessGraphFresh |

## Left out

- Backend and foreign libraries. Nothing of the backend calls is modelled:
  no HTTP to rasdaman, no XML or XPath parsing of its capabilities and
  coverage descriptions (app.py:44-355), and no parameters of the coverage
  request. The backend's answer to `start_job` is the input
  `BackendOutcome`. Any exception raised after the extent lookups becomes
  `Failed`: timestamp conversion, the request itself, or decoding
  (app.py:631-662).
- Flask plumbing. Nothing of it is modelled: routing, `jsonify`, request
  parsing, the `Location` and `OpenEO-Identifier` headers, and the
  capability, version, collection, file-format and process listings
  (app.py:114-132, 200-355, 458-511).
- The GET listings are not modelled. `/jobs` returns the stored records in
  insertion order (app.py:516-524). `/process_graphs` builds a summary of
  each stored graph from eight `.get` calls with defaults (app.py:360-386).
  Once `save_process_graph` has stored a body that is not a dict (see
  `JobStore.Store.SaveProcessGraph`), those calls raise `AttributeError`
  and the listing fails.
- The PATCH and DELETE handlers for process graphs are shadowed by helpers
  of the same name (app.py:427, 444 against app.py:435, 450). The model
  follows the helpers, which is what a call reaches.
- PATCH bodies are records. A PATCH body that is not a JSON object is not
  modelled (app.py:579, 437). `dict.update` accepts some of those, a list
  of key-value pairs for one, and rejects others.
- Timing is a parameter. The `created` time, the formatted `execution_time`
  and the client's default week are given already formatted.
- Datetime parsing is a parameter.
  - `Wcps` takes as `iso` the function that parses with
    `datetime.fromisoformat` and renders with `isoformat`.
  - `Client.ValidateTemporalExtent` takes instants as integers (only their
    order matters) and a rendering function. It does not model the
    conversion from strings at interface/__init__.py:188-191.
  - Not modelled at all (no member takes them): the conversion of the
    extents with `astimezone` in `start_job` (app.py:631-632, inside what
    `BackendOutcome` stands for), `format_timestamp`
    (interface/__init__.py:122-128) and `convert_hours_to_iso8601`.
- `float()` of a string is a parameter (`parseFloat`). Python's grammar for
  float literals is not modelled, and a number is kept as the exact rational
  read from JSON.
- Error texts. The text of Python's and requests' own error messages is
  modelled as CPython and requests word them for the cases used.
- Client.MakeRequest: the `url` in the HTTP error text is `RequestUrl`.
  requests puts the final prepared URL there, which it percent-encodes and
  normalises, so the two differ for ids holding spaces, non-ASCII or other
  characters requests quotes, and after a redirect. URL preparation and
  redirects are not modelled.
- Text.Repr: escapes only the characters below U+0100 that CPython does not
  print. Characters above U+00FF that CPython writes as `\u` or `\U`
  escapes, such as line and paragraph separators, are written as they are,
  because Unicode's printability table is not modelled.
- Wcps: the four spatial values and the collection id are given as the text
  the f-string renders from them (app.py:597, 605-606). Python's `str` of
  numbers is not modelled.
- Concurrency. Every `Store` method is modelled as atomic: it runs alone
  from start to finish. `app.run` (app.py:752) leaves Flask's threaded
  server on, so requests can interleave. Two interleavings are not captured:
  a PATCH or DELETE of a job while `start_job` waits on the backend
  (app.py:649-654), and two job creations that compute the same
  `job-(len+1)`.
- Status monotonicity is not claimed, because the code does not keep it:
  PATCH can store any status, and `start_job` runs any job again.
  `JobStore.Store.PatchJob` therefore does not promise `StatusesKnown`.
- The client's network call is the input `Transport`. Timeouts, redirects
  and sessions are not modelled.
- In the CLI:
  - invalid keystrokes, which click asks again for, are not commands;
  - the prompt texts and the screen output are not modelled;
  - the collection lookup of `create_job` and the extraction of its time
    values are not modelled (cli.py:150-158); the values are the input of
    `Pagination.ChooseTemporalExtent`;
  - the spatial prompts and the confirmation of `create_job` are not
    modelled (cli.py:206-267);
  - the listing commands are not modelled (cli.py:21-97);
  - the `start-job` and `get-results` commands, which call `make_request`
    and print what it returns, are not modelled (cli.py:274-298).
- `interface/gui.py`, `interface/visualize_data.py`, the performance
  scripts, `setup.py` and `config.py` are not part of this model. They are
  user interface, plotting, file and process I/O, or constants.
