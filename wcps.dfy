/** `construct_wcps_query` in app.py: builds a coverage-processing query
    (WCPS) from a collection id and optional temporal and spatial extents.
    Coordinates arrive already rendered as text (what the f-string prints for
    each value); turning an ISO timestamp into a datetime and back is
    Python's own code and is given as `iso` (`None` when the text is not an
    ISO timestamp). */
module Wcps {
  import opened Results
  import opened Text
  import opened PyJson

  function QueryHead(collectionId: string): string {
    "for data in (" + collectionId + ")"
  }

  const QueryTail := " return encode(data, 'GTiff')"

  function TimeClause(start: string, end: string): string {
    " where time(data) >= '" + start + "' and time(data) <= '" + end + "'"
  }

  /** Longitude between the first and third value, latitude between the
      second and fourth. */
  function SpatialClause(west: string, south: string, east: string, north: string): string {
    " where Long(data) >= " + west + " and Long(data) <= " + east +
    " and Lat(data) >= " + south + " and Lat(data) <= " + north
  }

  /** The ValueError of unpacking `got` values into `expected` names. */
  function UnpackError(expected: nat, got: nat): PyError {
    if got < expected then
      ValueError("not enough values to unpack (expected " + NatToString(expected) + ", got " + NatToString(got) + ")")
    else
      ValueError("too many values to unpack (expected " + NatToString(expected) + ")")
  }

  /** `parse_temporal_interval`: `start, end = interval.split('/')`, then
      each side is read as an ISO timestamp and written back. */
  function ParseInterval(interval: string, iso: string -> Option<string>): (r: Result<(string, string), PyError>)
    ensures r.Ok? ==>
              && |Split(interval, '/')| == 2
              && iso(Split(interval, '/')[0]) == Some(r.value.0)
              && iso(Split(interval, '/')[1]) == Some(r.value.1)
    ensures |Split(interval, '/')| != 2 ==> r == Err(UnpackError(2, |Split(interval, '/')|))
  {
    var parts := Split(interval, '/');
    if |parts| != 2 then Err(UnpackError(2, |parts|))
    else
      match iso(parts[0])
      case None => Err(ValueError("Invalid isoformat string: " + Repr(parts[0])))
      case Some(start) =>
        match iso(parts[1])
        case None => Err(ValueError("Invalid isoformat string: " + Repr(parts[1])))
        case Some(end) => Ok((start, end))
  }

  /** A parsed interval is the text `start + "/" + end` with no other slash. */
  lemma {:induction false} ParsedIntervalShape(interval: string, iso: string -> Option<string>)
    requires ParseInterval(interval, iso).Ok?
    ensures var parts := Split(interval, '/');
            && interval == parts[0] + "/" + parts[1]
            && '/' !in parts[0] && '/' !in parts[1]
  {
    var parts := Split(interval, '/');
    JoinSplit(interval, '/');
    assert Join(parts[1..], '/') == parts[1];
  }

  /** `if temporal_extent:` — absent or empty text means no time clause. */
  predicate GivenText(t: Option<string>) {
    t.Some? && t.value != []
  }

  /** `if spatial_extent:` — absent or empty sequence means no space clause. */
  predicate GivenValues(s: Option<seq<string>>) {
    s.Some? && s.value != []
  }

  function TimePart(temporal: Option<string>, iso: string -> Option<string>): Result<string, PyError> {
    if GivenText(temporal) then
      var (start, end) :- ParseInterval(temporal.value, iso);
      Ok(TimeClause(start, end))
    else Ok("")
  }

  /** `west, south, east, north = spatial_extent` */
  function SpacePart(spatial: Option<seq<string>>): Result<string, PyError> {
    if GivenValues(spatial) then
      var v := spatial.value;
      if |v| == 4 then Ok(SpatialClause(v[0], v[1], v[2], v[3]))
      else Err(UnpackError(4, |v|))
    else Ok("")
  }

  function ConstructWcpsQuery(
    collectionId: string, temporal: Option<string>, spatial: Option<seq<string>>,
    iso: string -> Option<string>): (r: Result<string, PyError>)
    ensures r.Ok? ==> QueryHead(collectionId) <= r.value && EndsWith(r.value, QueryTail)
    ensures r.Err? <==>
              || (GivenText(temporal) && ParseInterval(temporal.value, iso).Err?)
              || (GivenValues(spatial) && |spatial.value| != 4)
  {
    var time :- TimePart(temporal, iso);
    var space :- SpacePart(spatial);
    var query := QueryHead(collectionId) + time + space + QueryTail;
    assert query[|query| - |QueryTail|..] == QueryTail;
    Ok(query)
  }

  /** An empty part adds nothing to the query. */
  lemma EmptyParts(head: string, part: string, tail: string)
    ensures head + "" + part + tail == head + part + tail
    ensures head + part + "" + tail == head + part + tail
  {
    assert head + "" == head;
    assert head + part + "" == head + part;
  }

  /** With neither extent the query selects the whole coverage. */
  lemma QueryWithoutExtents(collectionId: string, iso: string -> Option<string>)
    ensures ConstructWcpsQuery(collectionId, None, None, iso) == Ok(QueryHead(collectionId) + QueryTail)
  {
    var head := QueryHead(collectionId);
    assert TimePart(None, iso) == Ok("") && SpacePart(None) == Ok("");
    assert head + "" + "" == head;
  }

  /** An empty extent is treated as no extent. */
  lemma EmptyExtentsIgnored(collectionId: string, iso: string -> Option<string>)
    ensures ConstructWcpsQuery(collectionId, Some(""), Some([]), iso) ==
            ConstructWcpsQuery(collectionId, None, None, iso)
  {
  }

  /** A temporal extent `a/b` adds exactly one time clause bounding the time
      axis by the normalised `a` and `b`, in that order. */
  lemma {:induction false} TemporalQuery(collectionId: string, a: string, b: string, iso: string -> Option<string>)
    requires '/' !in a && '/' !in b
    requires iso(a).Some? && iso(b).Some?
    ensures ConstructWcpsQuery(collectionId, Some(a + "/" + b), None, iso) ==
            Ok(QueryHead(collectionId) + TimeClause(iso(a).value, iso(b).value) + QueryTail)
  {
    IntervalTime(a, b, iso);
    assert SpacePart(None) == Ok("");
    EmptyParts(QueryHead(collectionId), TimeClause(iso(a).value, iso(b).value), QueryTail);
  }

  /** The interval `a/b` of two timestamps gives the time clause of their
      normalised forms. */
  lemma {:induction false} IntervalTime(a: string, b: string, iso: string -> Option<string>)
    requires '/' !in a && '/' !in b
    requires iso(a).Some? && iso(b).Some?
    ensures TimePart(Some(a + "/" + b), iso) == Ok(TimeClause(iso(a).value, iso(b).value))
  {
    assert a + "/" + b == Join([a, b], '/');
    SplitJoin([a, b], '/');
  }

  /** With both extents the time clause comes first and the spatial clause
      after it. */
  lemma {:induction false} BothExtentsQuery(
    collectionId: string, a: string, b: string, west: string, south: string, east: string, north: string,
    iso: string -> Option<string>)
    requires '/' !in a && '/' !in b
    requires iso(a).Some? && iso(b).Some?
    ensures ConstructWcpsQuery(collectionId, Some(a + "/" + b), Some([west, south, east, north]), iso) ==
            Ok(QueryHead(collectionId) + TimeClause(iso(a).value, iso(b).value)
               + SpatialClause(west, south, east, north) + QueryTail)
  {
    IntervalTime(a, b, iso);
    assert SpacePart(Some([west, south, east, north])) == Ok(SpatialClause(west, south, east, north));
  }

  /** A spatial extent is read as west, south, east, north: the first and
      third values bound longitude, the second and fourth latitude. */
  lemma SpatialQuery(collectionId: string, west: string, south: string, east: string, north: string,
                     iso: string -> Option<string>)
    ensures ConstructWcpsQuery(collectionId, None, Some([west, south, east, north]), iso) ==
            Ok(QueryHead(collectionId) + SpatialClause(west, south, east, north) + QueryTail)
  {
    var clause := SpatialClause(west, south, east, north);
    assert TimePart(None, iso) == Ok("");
    assert SpacePart(Some([west, south, east, north])) == Ok(clause);
    EmptyParts(QueryHead(collectionId), clause, QueryTail);
  }

  /** A temporal extent whose text is not `start/end` is rejected with the
      unpacking error, whatever the spatial extent. */
  lemma {:induction false} MalformedIntervalRejected(
    collectionId: string, interval: string, spatial: Option<seq<string>>, iso: string -> Option<string>)
    requires interval != [] && '/' !in interval
    ensures ConstructWcpsQuery(collectionId, Some(interval), spatial, iso) == Err(UnpackError(2, 1))
  {
    SplitNoSeparator(interval, '/');
  }
}
