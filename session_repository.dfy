/** The sessions repository over the document container: the filtered list
    query, create with a generated id, replace, delete, appending observed
    notes and storing an analysis. */
module SessionRepository {
  import opened Wrappers
  import opened Strings
  import opened Json
  import opened Queries
  import opened Cosmos
  import SessionStore

  /** The optional filters of `get_all_sessions`. */
  datatype SessionFilter = SessionFilter(
    coachId: Option<string>, participantId: Option<string>,
    status: Option<string>, sessionType: Option<string>)

  /** The filtered fields, in the order the query tests them. */
  const FilterFields: seq<string> := ["coachId", "participantId", "status", "type"]

  function ArgOf(f: SessionFilter, field: string): Option<string>
  {
    if field == "coachId" then f.coachId
    else if field == "participantId" then f.participantId
    else if field == "status" then f.status
    else if field == "type" then f.sessionType
    else None
  }

  function Pick(field: string, arg: Option<string>): seq<(string, string)>
  {
    if Given(arg) then [(field, arg.value)] else []
  }

  /** The (field, value) pairs of the truthy filters, in query order. */
  function Applied(f: SessionFilter): seq<(string, string)>
  {
    Pick("coachId", f.coachId) + Pick("participantId", f.participantId) +
    Pick("status", f.status) + Pick("type", f.sessionType)
  }

  /** `c.<field> = @<field>`. */
  function Clause(field: string): string
  {
    "c." + field + " = @" + field
  }

  function ParamOf(field: string, value: string): Param
  {
    Param("@" + field, JStr(value))
  }

  function ClausesOf(fs: seq<(string, string)>): (r: seq<string>)
    ensures |r| == |fs| && forall i :: 0 <= i < |fs| ==> r[i] == Clause(fs[i].0)
  {
    seq(|fs|, i requires 0 <= i < |fs| => Clause(fs[i].0))
  }

  function ParamsOf(fs: seq<(string, string)>): (r: seq<Param>)
    ensures |r| == |fs| && forall i :: 0 <= i < |fs| ==> r[i] == ParamOf(fs[i].0, fs[i].1)
  {
    seq(|fs|, i requires 0 <= i < |fs| => ParamOf(fs[i].0, fs[i].1))
  }

  /** Position of a filtered field in the query order. */
  function Rank(field: string): nat
  {
    if field == "coachId" then 0 else if field == "participantId" then 1
    else if field == "status" then 2 else 3
  }

  /** A filter takes part exactly when its argument is truthy, with that
      argument as its value, and the filters keep the order coachId,
      participantId, status, type. */
  lemma AppliedFilters(f: SessionFilter)
    ensures forall i :: 0 <= i < |Applied(f)| ==>
      Applied(f)[i].0 in FilterFields && ArgOf(f, Applied(f)[i].0) == Some(Applied(f)[i].1) &&
      Applied(f)[i].1 != ""
    ensures forall k :: 0 <= k < |FilterFields| && Given(ArgOf(f, FilterFields[k])) ==>
      exists i :: 0 <= i < |Applied(f)| && Applied(f)[i].0 == FilterFields[k]
    ensures forall i, j :: 0 <= i < j < |Applied(f)| ==> Rank(Applied(f)[i].0) < Rank(Applied(f)[j].0)
  {
    AppliedEntries(f);
    AppliedComplete(f);
    AppliedOrdered(f);
  }

  lemma AppliedEntries(f: SessionFilter)
    ensures forall i :: 0 <= i < |Applied(f)| ==>
      Applied(f)[i].0 in FilterFields && ArgOf(f, Applied(f)[i].0) == Some(Applied(f)[i].1) &&
      Applied(f)[i].1 != ""
  {
    var a, b, c, d := Pick("coachId", f.coachId), Pick("participantId", f.participantId),
                      Pick("status", f.status), Pick("type", f.sessionType);
    assert Applied(f) == a + b + c + d;
  }

  lemma AppliedComplete(f: SessionFilter)
    ensures forall k :: 0 <= k < |FilterFields| && Given(ArgOf(f, FilterFields[k])) ==>
      exists i :: 0 <= i < |Applied(f)| && Applied(f)[i].0 == FilterFields[k]
  {
    var a, b, c, d := Pick("coachId", f.coachId), Pick("participantId", f.participantId),
                      Pick("status", f.status), Pick("type", f.sessionType);
    assert Applied(f) == a + b + c + d;
    assert FilterFields[0] == "coachId" && FilterFields[1] == "participantId";
    assert FilterFields[2] == "status" && FilterFields[3] == "type";
    if Given(f.coachId) {
      assert Applied(f)[0].0 == "coachId";
    }
    if Given(f.participantId) {
      assert Applied(f)[|a|].0 == "participantId";
    }
    if Given(f.status) {
      assert Applied(f)[|a| + |b|].0 == "status";
    }
    if Given(f.sessionType) {
      assert Applied(f)[|a| + |b| + |c|].0 == "type";
    }
  }

  lemma AppliedOrdered(f: SessionFilter)
    ensures forall i, j :: 0 <= i < j < |Applied(f)| ==> Rank(Applied(f)[i].0) < Rank(Applied(f)[j].0)
  {
    var a, b, c, d := Pick("coachId", f.coachId), Pick("participantId", f.participantId),
                      Pick("status", f.status), Pick("type", f.sessionType);
    assert Applied(f) == a + b + c + d;
  }

  /** The query has no WHERE part exactly when no filter is truthy. */
  lemma SessionQueryBare(f: SessionFilter)
    ensures WithWhere(ClausesOf(Applied(f))) == SelectAll <==>
      !Given(f.coachId) && !Given(f.participantId) && !Given(f.status) && !Given(f.sessionType)
  {
    WithWhereBare(ClausesOf(Applied(f)));
  }

  /** One parameter per clause, and each clause compares its field with the
      parameter beside it. */
  lemma SessionParamsMatchClauses(f: SessionFilter)
    ensures |ParamsOf(Applied(f))| == |ClausesOf(Applied(f))|
    ensures forall i :: 0 <= i < |Applied(f)| ==>
      ClausesOf(Applied(f))[i] == "c." + Applied(f)[i].0 + " = " + ParamsOf(Applied(f))[i].name &&
      ParamsOf(Applied(f))[i].value == JStr(Applied(f)[i].1)
  {
    forall i | 0 <= i < |Applied(f)|
      ensures ClausesOf(Applied(f))[i] == "c." + Applied(f)[i].0 + " = " + ParamsOf(Applied(f))[i].name
    {
      var x := Applied(f)[i].0;
      assert "c." + x + " = @" + x == "c." + x + " = " + ("@" + x);
    }
  }

  lemma AppendFilters(a: seq<(string, string)>, b: seq<(string, string)>)
    ensures ClausesOf(a + b) == ClausesOf(a) + ClausesOf(b)
    ensures ParamsOf(a + b) == ParamsOf(a) + ParamsOf(b)
  {
  }

  lemma AppliedClauses(f: SessionFilter)
    ensures ClausesOf(Applied(f)) == ClausesOf(Pick("coachId", f.coachId)) +
      ClausesOf(Pick("participantId", f.participantId)) + ClausesOf(Pick("status", f.status)) +
      ClausesOf(Pick("type", f.sessionType))
    ensures ParamsOf(Applied(f)) == ParamsOf(Pick("coachId", f.coachId)) +
      ParamsOf(Pick("participantId", f.participantId)) + ParamsOf(Pick("status", f.status)) +
      ParamsOf(Pick("type", f.sessionType))
  {
    var a, b, c, d := Pick("coachId", f.coachId), Pick("participantId", f.participantId),
                      Pick("status", f.status), Pick("type", f.sessionType);
    AppendFilters(a, b);
    AppendFilters(a + b, c);
    AppendFilters(a + b + c, d);
  }

  /** One `if <arg>: where_clauses.append(...); parameters.append(...)`
      block of `get_all_sessions`. */
  method AddFilter(clauses: seq<string>, params: seq<Param>, field: string, arg: Option<string>)
    returns (clauses': seq<string>, params': seq<Param>)
    ensures clauses' == clauses + ClausesOf(Pick(field, arg))
    ensures params' == params + ParamsOf(Pick(field, arg))
  {
    clauses', params' := clauses, params;
    if Given(arg) {
      clauses' := clauses' + [Clause(field)];
      params' := params' + [ParamOf(field, arg.value)];
    }
  }

  /** `create_session`'s body: an `id` is added only when there is none. */
  function WithSessionId(data: Document, hex8: string): (r: Document)
    requires SessionStore.IsHex8(hex8)
    ensures "id" in data ==> r == data
    ensures "id" !in data ==> IdOf(r) == Some("session-" + hex8) && r == data["id" := r["id"]]
  {
    if "id" !in data then data["id" := JStr("session-" + hex8)] else data
  }

  /** `add_observations` on the stored record: without notes in the request
      nothing changes; a record lacking `notes` is a KeyError; otherwise the
      notes step of the in-memory store. */
  function ObservationsAdded(s: Document, data: Document): (r: Result<Document>)
    ensures "notes" !in data ==> r == Ok(s)
    ensures "notes" in data && "notes" !in s ==> r == Err("KeyError")
    ensures r.Ok? ==> r.value.Keys == s.Keys && forall k :: k in s && k != "notes" ==> r.value[k] == s[k]
    ensures "notes" in data && "notes" in s && s["notes"].JStr? ==>
      r == Ok(s["notes" := if s["notes"].s != "" then JStr(s["notes"].s + ("\n\n" + Show(data["notes"])))
                           else data["notes"]])
  {
    if "notes" !in data then Ok(s)
    else if "notes" !in s then Err("KeyError")
    else SessionStore.NotesStep(s, data["notes"])
  }

  const NoNotes := "Session has no notes to analyze"

  class SessionRepository {
    const container: Container

    ghost predicate Valid()
      reads this, container
    {
      container.Valid()
    }

    constructor(container: Container)
      requires container.Valid()
      ensures this.container == container && Valid()
    {
      this.container := container;
    }

    /** `get_all_sessions`: the query text and parameters it sends. */
    method GetAllSessionsQuery(f: SessionFilter) returns (query: string, params: seq<Param>)
      ensures query == WithWhere(ClausesOf(Applied(f)))
      ensures params == ParamsOf(Applied(f))
    {
      var clauses: seq<string>;
      clauses, params := AddFilter([], [], "coachId", f.coachId);
      clauses, params := AddFilter(clauses, params, "participantId", f.participantId);
      clauses, params := AddFilter(clauses, params, "status", f.status);
      clauses, params := AddFilter(clauses, params, "type", f.sessionType);
      AppliedClauses(f);
      assert clauses == ClausesOf(Applied(f));
      query := SelectAll;
      if |clauses| > 0 {
        query := query + " WHERE " + Join(" AND ", clauses);
      }
    }

    /** `get_session`: the stored document, or None. */
    method GetSession(id: string) returns (r: Option<Document>)
      requires Valid()
      ensures r == if id in container.items then Some(container.items[id]) else None
    {
      var read := container.ReadItem(id);
      r := if read.Ok? then Some(read.value) else None;
    }

    /** `create_session`: the request, given an id when it has none, is
      created; a failure of the container escapes to the caller. */
    method CreateSession(data: Document, hex8: string) returns (r: Result<Document>)
      requires Valid() && SessionStore.IsHex8(hex8)
      modifies container
      ensures Valid()
      ensures var body := WithSessionId(data, hex8);
        if IdOf(body).Some? && IdOf(body).value !in old(container.items) then
          r == Ok(body) && container.items == old(container.items)[IdOf(body).value := body]
        else
          r.Err? && container.items == old(container.items)
    {
      r := container.CreateItem(WithSessionId(data, hex8));
    }

    /** `update_session`: the body always gets `id = session_id`; a failed
      replace gives None. */
    method UpdateSession(id: string, data: Document) returns (r: Option<Document>)
      requires Valid()
      modifies container
      ensures Valid()
      ensures id in old(container.items) ==>
        r == Some(data["id" := JStr(id)]) &&
        container.items == old(container.items)[id := data["id" := JStr(id)]]
      ensures id !in old(container.items) ==> r == None && container.items == old(container.items)
    {
      var replaced := container.ReplaceItem(id, data["id" := JStr(id)]);
      r := if replaced.Ok? then Some(replaced.value) else None;
    }

    /** `delete_session`: the document is gone; the result is None either
      way. */
    method DeleteSession(id: string)
      requires Valid()
      modifies container
      ensures Valid() && container.items == old(container.items) - {id}
    {
      var _ := container.DeleteItem(id);
    }

    /** `add_observations`: None for a missing session or a failing step;
      otherwise the record with its notes grown is saved and returned. */
    method AddObservations(id: string, data: Document) returns (r: Option<Document>)
      requires Valid()
      modifies container
      ensures Valid()
      ensures id !in old(container.items) ==> r == None && container.items == old(container.items)
      ensures id in old(container.items) ==>
        var added := ObservationsAdded(old(container.items)[id], data);
        (added.Err? ==> r == None && container.items == old(container.items)) &&
        (added.Ok? ==> r == Some(added.value) &&
                       container.items == old(container.items)[id := added.value])
    {
      var session := GetSession(id);
      if session.None? {
        return None;
      }
      var added := ObservationsAdded(session.value, data);
      if added.Err? {
        return None;
      }
      assert added.value["id" := JStr(id)] == added.value;
      r := UpdateSession(id, added.value);
    }

    /** `generate_analysis`: None for a missing session, an error object and
      no update when the notes are falsy, otherwise the analysis (from the
      supplied service, or the fixed mock) is stored as `aiSuggestions` and
      returned. */
    method GenerateAnalysis(id: string, analyze: Option<Json -> Json>) returns (r: Option<Json>)
      requires Valid()
      modifies container
      ensures Valid()
      ensures id !in old(container.items) ==> r == None && container.items == old(container.items)
      ensures id in old(container.items) && !Truthy(Get(old(container.items)[id], "notes", JNull)) ==>
        r == Some(JObj(map["error" := JStr(NoNotes)])) && container.items == old(container.items)
      ensures id in old(container.items) && Truthy(Get(old(container.items)[id], "notes", JNull)) ==>
        var s := old(container.items)[id];
        var analysis := if analyze.Some? then analyze.value(s["notes"]) else SessionStore.MockAnalysis;
        r == Some(analysis) && container.items == old(container.items)[id := s["aiSuggestions" := analysis]]
    {
      var session := GetSession(id);
      if session.None? {
        return None;
      }
      var s := session.value;
      if !Truthy(Get(s, "notes", JNull)) {
        return Some(JObj(map["error" := JStr(NoNotes)]));
      }
      var analysis := if analyze.Some? then analyze.value(s["notes"]) else SessionStore.MockAnalysis;
      assert IdOf(s) == Some(id);
      s := s["aiSuggestions" := analysis];
      KeepsOwnId(s, id);
      var _ := UpdateSession(id, s);
      r := Some(analysis);
    }
  }
}
