/** What a Flask route hands back: a status code with a JSON body, or an
    exception that escaped the handler (which Flask turns into a 500 page);
    and the required-field check the create routes share. */
module Http {
  import opened Wrappers
  import opened Json
  import opened Cosmos

  datatype Reply =
    | Reply(code: int, body: Json)
    | Raised(exception: string)

  function ErrorBody(message: string): Json
  {
    JObj(map["error" := JStr(message)])
  }

  function MissingField(field: string): Reply
  {
    Reply(400, ErrorBody("Missing required field: " + field))
  }

  /** The first required field, in list order, that the request lacks. */
  function FirstMissing(data: Document, required: seq<string>): (r: Option<string>)
    ensures r.None? <==> forall i :: 0 <= i < |required| ==> required[i] in data
    ensures r.Some? ==> r.value !in data
    ensures r.Some? ==> exists i :: (0 <= i < |required| && required[i] == r.value &&
                                     forall j :: 0 <= j < i ==> required[j] in data)
    decreases |required|
  {
    if |required| == 0 then None
    else if required[0] !in data then Some(required[0])
    else
      var r := FirstMissing(data, required[1..]);
      assert forall i :: 1 <= i < |required| ==> required[1..][i - 1] == required[i];
      if r.Some? then
        var i :| 0 <= i < |required| - 1 && required[1..][i] == r.value &&
          (forall j :: 0 <= j < i ==> required[1..][j] in data);
        assert required[i + 1] == r.value;
        r
      else r
  }

  /** `for field in required_fields: if field not in data: return ...`. */
  method CheckRequired(data: Document, required: seq<string>) returns (missing: Option<string>)
    ensures missing == FirstMissing(data, required)
  {
    var i := 0;
    while i < |required|
      invariant 0 <= i <= |required|
      invariant forall j :: 0 <= j < i ==> required[j] in data
      invariant FirstMissing(data, required) == FirstMissing(data, required[i..])
    {
      if required[i] !in data {
        return Some(required[i]);
      }
      assert required[i..][1..] == required[i + 1..];
      i := i + 1;
    }
    return None;
  }

  /** `if not found`: a missing or an empty document is not found. */
  predicate Found(m: Option<Document>)
  {
    m.Some? && |m.value| > 0
  }

  /** The answer of a create call: 201 with the stored document, or the
      container's exception. */
  function Created(r: Result<Document>): Reply
  {
    if r.Ok? then Reply(201, JObj(r.value)) else Raised(r.error)
  }

  /** What a create call leaves behind for the completed body: 201 with the
      body stored under its id, or an exception and nothing stored. */
  ghost predicate CreatedAs(reply: Reply, body: Document, before: map<string, Document>, after: map<string, Document>)
  {
    if IdOf(body).Some? && IdOf(body).value !in before then
      reply == Reply(201, JObj(body)) && after == before[IdOf(body).value := body]
    else
      reply.Raised? && after == before
  }
}
