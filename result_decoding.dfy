/**
 * `dataToResults`: the per-light outcomes of a state change or scene
 * activation, under a `results` key, decoded all-or-nothing.
 */
module ResultDecoding {
  import opened Wrappers
  import opened Json
  import opened Errors

  /** The outcome of a command for one light. */
  datatype Status = Ok | TimedOut | Offline | Unknown

  function StatusRawValue(s: Status): string
  {
    match s
    case Ok => "ok"
    case TimedOut => "timed_out"
    case Offline => "offline"
    case Unknown => "unknown"
  }

  /** `Result.Status(rawValue:)`. */
  function StatusFromRawValue(raw: string): (r: Option<Status>)
    ensures r.Some? ==> StatusRawValue(r.value) == raw
  {
    if raw == "ok" then Some(Ok)
    else if raw == "timed_out" then Some(TimedOut)
    else if raw == "offline" then Some(Offline)
    else if raw == "unknown" then Some(Unknown)
    else None
  }

  lemma StatusRawValueRoundTrip(s: Status)
    ensures StatusFromRawValue(StatusRawValue(s)) == Some(s)
  {
  }

  datatype Result = Result(id: string, status: Status)

  /** A result needs a string id; a status that is absent or not a string reads as `"unknown"`. */
  function DecodeResult(o: Object): (r: Option<Result>)
    ensures r.Some? <==>
      StringField(o, "id").Some? && StatusFromRawValue(StringField(o, "status").GetOr("unknown")).Some?
    ensures r.Some? ==> Some(r.value.id) == StringField(o, "id")
    ensures r.Some? ==> StatusRawValue(r.value.status) == StringField(o, "status").GetOr("unknown")
  {
    match (StringField(o, "id"), StatusFromRawValue(StringField(o, "status").GetOr("unknown")))
    case (Some(id), Some(status)) => Some(Result(id, status))
    case _ => None
  }

  lemma DecodeResultCases(o: Object)
    ensures StringField(o, "id").None? ==> DecodeResult(o).None?
    ensures StringField(o, "id").Some? && StringField(o, "status").None? ==>
            DecodeResult(o) == Some(Result(StringField(o, "id").value, Unknown))
    ensures StringField(o, "status").Some? && StatusFromRawValue(StringField(o, "status").value).None? ==>
            DecodeResult(o).None?
  {
  }

  function DecodeResults(os: seq<Object>): (r: Option<seq<Result>>)
    ensures r.Some? ==> |r.value| == |os|
  {
    if os == [] then Some([])
    else
      match DecodeResult(os[0])
      case None => None
      case Some(x) =>
        match DecodeResults(os[1..])
        case None => None
        case Some(xs) => Some([x] + xs)
  }

  /** The decoded list is one result per element, in order, and nothing else. */
  lemma {:induction false} DecodeResultsPointwise(os: seq<Object>, rs: seq<Result>)
    ensures DecodeResults(os) == Some(rs) <==>
            |rs| == |os| && forall i :: 0 <= i < |os| ==> DecodeResult(os[i]) == Some(rs[i])
  {
    if os != [] {
      if |rs| == |os| {
        DecodeResultsPointwise(os[1..], rs[1..]);
        assert forall i :: 1 <= i < |os| ==> os[1..][i - 1] == os[i] && rs[1..][i - 1] == rs[i];
        assert rs == [rs[0]] + rs[1..];
      } else if DecodeResults(os).Some? {
        assert |DecodeResults(os).value| == |os|;
      }
    }
  }

  /** Decoding fails exactly when some element fails. */
  lemma {:induction false} DecodeResultsAllOrNothing(os: seq<Object>)
    ensures DecodeResults(os).None? <==> exists i :: 0 <= i < |os| && DecodeResult(os[i]).None?
  {
    if os != [] {
      DecodeResultsAllOrNothing(os[1..]);
      if DecodeResult(os[0]).Some? {
        assert forall i :: 1 <= i < |os| ==> os[1..][i - 1] == os[i];
        if exists i :: 0 <= i < |os| && DecodeResult(os[i]).None? {
          var i :| 0 <= i < |os| && DecodeResult(os[i]).None?;
          assert os[1..][i - 1] == os[i];
        }
      }
    }
  }

  /** The result objects: the `results` array of a root object, or none at all. */
  function ResultObjects(root: Json): seq<Object>
  {
    match AsObject(root)
    case Some(d) => ObjectArrayField(d, "results").GetOr([])
    case None => []
  }

  /** The whole of `dataToResults` over an already parsed body. */
  function ResultsFromBody(body: Body<NSError>): (seq<Result>, Option<NSError>)
  {
    match body
    case NoData => ([], Some(NoDataError))
    case Unparseable(e) => ([], Some(e))
    case Parsed(root) =>
      match DecodeResults(ResultObjects(root))
      case None => ([], Some(MissingPropertiesError))
      case Some(results) => (results, None)
  }

  /** The loop of `dataToResults`, returning early at the first element that fails. */
  method DataToResults(body: Body<NSError>) returns (results: seq<Result>, error: Option<NSError>)
    ensures (results, error) == ResultsFromBody(body)
  {
    if body.NoData? {
      return [], Some(NoDataError);
    }
    if body.Unparseable? {
      return [], Some(body.error);
    }
    var objects := ResultObjects(body.root);
    results := [];
    var i := 0;
    while i < |objects|
      invariant 0 <= i <= |objects|
      invariant |results| == i
      invariant forall k :: 0 <= k < i ==> DecodeResult(objects[k]) == Some(results[k])
    {
      var result := DecodeResult(objects[i]);
      if result.None? {
        DecodeResultsAllOrNothing(objects);
        return [], Some(MissingPropertiesError);
      }
      results := results + [result.value];
      i := i + 1;
    }
    DecodeResultsPointwise(objects, results);
    error := None;
  }

  /** The outcomes of `dataToResults`, case by case. */
  lemma ResultsFromBodyOutcomes(body: Body<NSError>)
    ensures body.NoData? ==> ResultsFromBody(body) == ([], Some(NoDataError))
    ensures body.Unparseable? ==> ResultsFromBody(body) == ([], Some(body.error))
    ensures body.Parsed? &&
            (AsObject(body.root).None? || ObjectArrayField(AsObject(body.root).value, "results").None?) ==>
            ResultsFromBody(body) == ([], None)
    ensures body.Parsed? ==>
      var os := ResultObjects(body.root);
      var (results, error) := ResultsFromBody(body);
      && (error.Some? <==> exists i :: 0 <= i < |os| && DecodeResult(os[i]).None?)
      && (error.Some? ==> results == [] && error == Some(MissingPropertiesError))
      && (error.None? ==> |results| == |os| &&
                          forall i :: 0 <= i < |os| ==> DecodeResult(os[i]) == Some(results[i]))
  {
    if body.Parsed? {
      var os := ResultObjects(body.root);
      assert DecodeResults([]) == Some([]);
      DecodeResultsAllOrNothing(os);
      if DecodeResults(os).Some? {
        DecodeResultsPointwise(os, DecodeResults(os).value);
      }
    }
  }
}
