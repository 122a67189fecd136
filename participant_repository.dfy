/** The participants repository over the document container: the preview
    projection, the filtered list with per-participant session counts, read,
    create, field-by-field update, delete and the stored job matches. */
module ParticipantRepository {
  import opened Wrappers
  import opened Strings
  import opened Json
  import opened Queries
  import opened Cosmos

  // ---------------------------------------------------------------------
  // Previews

  /** The fields every preview copies. */
  const PreviewFields: seq<string> :=
    ["id", "fullName", "email", "disabilityType", "currentStatus", "employmentGoal"]

  predicate HasPreviewFields(p: Document)
  {
    forall k :: k in PreviewFields ==> k in p
  }

  /** `map_to_preview`, or the KeyError of a missing core field, or the
      TypeError of a `jobMatches` without a length. */
  function MapToPreview(p: Document): (r: Result<Document>)
    ensures r.Ok? <==> HasPreviewFields(p) && PyLen(Get(p, "jobMatches", JList([]))).Ok?
  {
    if !HasPreviewFields(p) then Err("KeyError")
    else
      match PyLen(Get(p, "jobMatches", JList([])))
      case Err(e) => Err(e)
      case Ok(n) =>
        var core := map k | k in PreviewFields :: p[k];
        var withAvatar := if "avatar" in p then core["avatar" := p["avatar"]] else core;
        Ok(withAvatar["jobMatchCount" := JInt(n)]["sessionCount" := JInt(0)])
  }

  /** A preview holds exactly the six core fields, copied, the avatar only
      when the participant has one, the number of job matches (0 without
      any) and a session count of 0. */
  lemma PreviewShape(p: Document)
    requires MapToPreview(p).Ok?
    ensures var r := MapToPreview(p).value;
      r.Keys == (set k | k in PreviewFields) + {"jobMatchCount", "sessionCount"} +
                (if "avatar" in p then {"avatar"} else {}) &&
      (forall k :: k in PreviewFields ==> r[k] == p[k]) &&
      ("avatar" in p ==> r["avatar"] == p["avatar"]) &&
      r["jobMatchCount"] == JInt(PyLen(Get(p, "jobMatches", JList([]))).value) &&
      ("jobMatches" !in p ==> r["jobMatchCount"] == JInt(0)) &&
      r["sessionCount"] == JInt(0)
  {
  }

  lemma PreviewKeepsId(p: Document)
    requires MapToPreview(p).Ok?
    ensures "id" in p && "id" in MapToPreview(p).value && MapToPreview(p).value["id"] == p["id"]
  {
    assert "id" in PreviewFields;
  }

  /** `get_session_count`: the first row of the count query, or 0 when
      there is no row or the query raised (`None` here). */
  function SessionCount(rows: Option<seq<Json>>): Json
  {
    if rows.Some? && |rows.value| > 0 then rows.value[0] else JInt(0)
  }

  function PreviewOf(): (Document, nat) -> Result<Document>
  {
    (p: Document, i: nat) => MapToPreview(p)
  }

  /** The second pass: each preview's session count from the count query
      for its id. */
  function WithSessionCounts(previews: seq<Document>, counts: Json -> Option<seq<Json>>): (r: seq<Document>)
    ensures |r| == |previews|
  {
    seq(|previews|, i requires 0 <= i < |previews| =>
      previews[i]["sessionCount" := SessionCount(counts(Get(previews[i], "id", JNull)))])
  }

  /** The previews `get_all_participants` returns for the query's items. */
  function ParticipantPreviews(items: seq<Document>, counts: Json -> Option<seq<Json>>): Result<seq<Document>>
  {
    match MapAll(items, PreviewOf())
    case Err(e) => Err(e)
    case Ok(previews) => Ok(WithSessionCounts(previews, counts))
  }

  /** One preview per item, in order, each the item's projection with the
      session count of its id; the KeyError of any item escapes. */
  lemma PreviewsCounted(items: seq<Document>, counts: Json -> Option<seq<Json>>)
    ensures ParticipantPreviews(items, counts).Ok? <==>
      forall i :: 0 <= i < |items| ==> MapToPreview(items[i]).Ok?
    ensures ParticipantPreviews(items, counts).Ok? ==>
      var r := ParticipantPreviews(items, counts).value;
      |r| == |items| &&
      forall i :: 0 <= i < |items| ==>
        r[i] == MapToPreview(items[i]).value["sessionCount" := SessionCount(counts(items[i]["id"]))]
  {
    var all := MapAll(items, PreviewOf());
    if all.Ok? {
      var r := ParticipantPreviews(items, counts).value;
      forall i | 0 <= i < |items|
        ensures MapToPreview(items[i]).Ok?
        ensures r[i] == MapToPreview(items[i]).value["sessionCount" := SessionCount(counts(items[i]["id"]))]
      {
        assert PreviewOf()(items[i], i) == Ok(all.value[i]);
        PreviewKeepsId(items[i]);
        assert r[i] == all.value[i]["sessionCount" := SessionCount(counts(Get(all.value[i], "id", JNull)))];
      }
    }
  }

  // ---------------------------------------------------------------------
  // get_all_participants

  /** The filters that take a numbered parameter, in query order. */
  datatype ParticipantField = CurrentStatusField | DisabilityTypeField | CoachIdField
  {
    function Rank(): nat
    {
      match this
      case CurrentStatusField => 0
      case DisabilityTypeField => 1
      case CoachIdField => 2
    }
  }

  datatype ParticipantFilter = ParticipantFilter(
    status: Option<string>, disabilityType: Option<string>,
    skillType: Option<string>, coachId: Option<string>)

  function ArgOf(pf: ParticipantFilter, f: ParticipantField): Option<string>
  {
    match f
    case CurrentStatusField => pf.status
    case DisabilityTypeField => pf.disabilityType
    case CoachIdField => pf.coachId
  }

  /** Status and disability type skip `"all"`; the coach only needs a
      truthy value. */
  predicate Kept(pf: ParticipantFilter, f: ParticipantField)
  {
    match f
    case CoachIdField => Given(pf.coachId)
    case _ => Applies(ArgOf(pf, f))
  }

  function ParticipantClause(f: ParticipantField, p: string): string
  {
    match f
    case CurrentStatusField => "c.currentStatus = " + p
    case DisabilityTypeField => "c.disabilityType = " + p
    case CoachIdField => "c.coachId = " + p
  }

  function ParticipantApplied(pf: ParticipantFilter): seq<(ParticipantField, string)>
  {
    Take(CurrentStatusField, pf.status, Applies(pf.status)) +
    Take(DisabilityTypeField, pf.disabilityType, Applies(pf.disabilityType)) +
    Take(CoachIdField, pf.coachId, Given(pf.coachId))
  }

  /** The skill clause, with the skill type written into the text. */
  function SkillClause(skillType: string): string
  {
    "ARRAY_LENGTH(c.skills." + skillType + ") > 0"
  }

  function ParticipantClauses(pf: ParticipantFilter): seq<string>
  {
    NumberedClauses(ParticipantApplied(pf), ParticipantClause) +
    (if Applies(pf.skillType) then [SkillClause(pf.skillType.value)] else [])
  }

  function ParticipantParams(pf: ParticipantFilter): seq<Param>
  {
    NumberedParams(ParticipantApplied(pf))
  }

  /** A filter takes part exactly when it is kept, with its own argument,
      in the order status, disability type, coach. */
  lemma ParticipantFilters(pf: ParticipantFilter)
    ensures forall i :: 0 <= i < |ParticipantApplied(pf)| ==>
      Kept(pf, ParticipantApplied(pf)[i].0) &&
      ParticipantApplied(pf)[i].1 == ArgOf(pf, ParticipantApplied(pf)[i].0).value
    ensures forall f: ParticipantField :: Kept(pf, f) ==>
      exists i :: 0 <= i < |ParticipantApplied(pf)| && ParticipantApplied(pf)[i].0 == f
    ensures forall i, j :: 0 <= i < j < |ParticipantApplied(pf)| ==>
      ParticipantApplied(pf)[i].0.Rank() < ParticipantApplied(pf)[j].0.Rank()
  {
    var a := Take(CurrentStatusField, pf.status, Applies(pf.status));
    var b := Take(DisabilityTypeField, pf.disabilityType, Applies(pf.disabilityType));
    var c := Take(CoachIdField, pf.coachId, Given(pf.coachId));
    var all := ParticipantApplied(pf);
    assert all == a + b + c;
    forall f: ParticipantField | Kept(pf, f)
      ensures exists i :: 0 <= i < |all| && all[i].0 == f
    {
      match f
      case CurrentStatusField => assert all[0].0 == f;
      case DisabilityTypeField => assert all[|a|].0 == f;
      case CoachIdField => assert all[|a| + |b|].0 == f;
    }
  }

  /** The skill type is written into the query text. */
  lemma SkillTypeInQuery(clauses: seq<string>, skill: string)
    ensures Contains(WithWhere(clauses + [SkillClause(skill)]), skill)
  {
    var all := clauses + [SkillClause(skill)];
    JoinLast(" AND ", all);
    assert all[..|all| - 1] == clauses;
    var pre := Join(" AND ", clauses) + (if |clauses| > 0 then " AND " else "");
    assert Join(" AND ", all) == pre + SkillClause(skill);
    ContainsMiddle("ARRAY_LENGTH(c.skills.", skill, ") > 0");
    ContainsAfter(pre, SkillClause(skill), skill);
    ContainsAfter(SelectAll + " WHERE ", Join(" AND ", all), skill);
  }

  /** The skill clause takes no parameter: with a skill filter there is one
      parameter fewer than clauses, and the skill type itself appears in the
      query text. Without one, each clause has its `@pk` parameter. */
  lemma ParticipantQueryShape(pf: ParticipantFilter)
    ensures Applies(pf.skillType) ==>
      |ParticipantParams(pf)| == |ParticipantClauses(pf)| - 1 &&
      Contains(WithWhere(ParticipantClauses(pf)), pf.skillType.value)
    ensures !Applies(pf.skillType) ==> |ParticipantParams(pf)| == |ParticipantClauses(pf)|
    ensures forall i :: 0 <= i < |ParticipantApplied(pf)| ==>
      ParticipantParams(pf)[i].name == Numbered(i + 1) &&
      ParticipantClauses(pf)[i] == ParticipantClause(ParticipantApplied(pf)[i].0, Numbered(i + 1))
  {
    if Applies(pf.skillType) {
      SkillTypeInQuery(NumberedClauses(ParticipantApplied(pf), ParticipantClause), pf.skillType.value);
    }
  }

  lemma {:induction false} JoinLast(sep: string, parts: seq<string>)
    requires |parts| > 0
    ensures Join(sep, parts) ==
      Join(sep, parts[..|parts| - 1]) + (if |parts| > 1 then sep else "") + parts[|parts| - 1]
    decreases |parts|
  {
    if |parts| > 2 {
      JoinLast(sep, parts[1..]);
      assert parts[1..][..|parts| - 2] == parts[..|parts| - 1][1..];
    }
  }

  /** The clause-building part of `get_all_participants`: the counter also
      advances for the skill clause, which adds no parameter. */
  method ParticipantCriteria(pf: ParticipantFilter) returns (clauses: seq<string>, params: seq<Param>)
    ensures clauses == ParticipantClauses(pf)
    ensures params == ParticipantParams(pf)
  {
    var index: nat;
    ghost var done: seq<(ParticipantField, string)> := [];
    clauses, params, index := AddNumbered(done, [], [], 0, CurrentStatusField, pf.status,
                                          Applies(pf.status), ParticipantClause);
    done := done + Take(CurrentStatusField, pf.status, Applies(pf.status));
    clauses, params, index := AddNumbered(done, clauses, params, index, DisabilityTypeField,
                                          pf.disabilityType, Applies(pf.disabilityType), ParticipantClause);
    done := done + Take(DisabilityTypeField, pf.disabilityType, Applies(pf.disabilityType));
    clauses, params, index := AddNumbered(done, clauses, params, index, CoachIdField,
                                          pf.coachId, Given(pf.coachId), ParticipantClause);
    done := done + Take(CoachIdField, pf.coachId, Given(pf.coachId));
    assert done == ParticipantApplied(pf);
    if Applies(pf.skillType) {
      index := index + 1;
      clauses := clauses + [SkillClause(pf.skillType.value)];
    }
  }

  /** `[self.map_to_preview(item) for item in items]`. */
  method Project(items: seq<Document>) returns (r: Result<seq<Document>>)
    ensures r == MapAll(items, PreviewOf())
  {
    var previews: seq<Document> := [];
    for i := 0 to |items|
      invariant MapAll(items[..i], PreviewOf()) == Ok(previews)
    {
      MapAllStep(items, PreviewOf(), i);
      var preview := MapToPreview(items[i]);
      if preview.Err? {
        MapAllStops(items, PreviewOf(), i + 1);
        return Err(preview.error);
      }
      previews := previews + [preview.value];
    }
    assert items[..|items|] == items;
    r := Ok(previews);
  }

  /** The loop writing each preview's `sessionCount`. */
  method CountSessions(previews: seq<Document>, counts: Json -> Option<seq<Json>>) returns (r: seq<Document>)
    ensures r == WithSessionCounts(previews, counts)
  {
    r := previews;
    for i := 0 to |r|
      invariant |r| == |previews|
      invariant forall j :: 0 <= j < i ==> r[j] == WithSessionCounts(previews, counts)[j]
      invariant forall j :: i <= j < |r| ==> r[j] == previews[j]
    {
      r := r[i := r[i]["sessionCount" := SessionCount(counts(Get(r[i], "id", JNull)))]];
    }
  }

  class ParticipantRepository {
    const container: Container

    ghost predicate Valid()
      reads this, container
    {
      container.Valid()
    }

    constructor(container: Container)
      requires container.Valid()
      ensures this.container == container && Valid()
    {
      this.container := container;
    }

    /** The query text and parameters of `get_all_participants`. */
    method GetAllParticipantsQuery(pf: ParticipantFilter) returns (query: string, params: seq<Param>)
      ensures query == WithWhere(ParticipantClauses(pf))
      ensures params == ParticipantParams(pf)
    {
      var clauses;
      clauses, params := ParticipantCriteria(pf);
      query := WhereQuery(clauses);
    }

    /** `get_all_participants`: the items the query returns (`answer`),
      projected to previews, then each given the session count of its id
      (`counts`, None when the count query raises). */
    method GetAllParticipants(pf: ParticipantFilter, answer: (string, seq<Param>) -> seq<Document>,
                              counts: Json -> Option<seq<Json>>)
      returns (r: Result<seq<Document>>)
      ensures r == ParticipantPreviews(answer(WithWhere(ParticipantClauses(pf)), ParticipantParams(pf)), counts)
    {
      var query, params := GetAllParticipantsQuery(pf);
      var previews := Project(answer(query, params));
      if previews.Err? {
        return Err(previews.error);
      }
      var counted := CountSessions(previews.value, counts);
      r := Ok(counted);
    }

    /** `get_participant`: the participant with that id, or None. */
    method GetParticipant(id: string) returns (r: Option<Document>)
      requires Valid()
      ensures r == if id in container.items then Some(container.items[id]) else None
      ensures r.Some? ==> IdOf(r.value) == Some(id)
    {
      var read := container.ReadItem(id);
      r := if read.Ok? then Some(read.value) else None;
    }

    /** `create_participant`: the stamped body is created; a failure of the
      container escapes to the caller. */
    method CreateParticipant(data: Document, uuid: string, now: string) returns (r: Result<Document>)
      requires Valid()
      modifies container
      ensures Valid()
      ensures var body := Stamped(data, uuid, now);
        if IdOf(body).Some? && IdOf(body).value !in old(container.items) then
          r == Ok(body) && container.items == old(container.items)[IdOf(body).value := body]
        else
          r.Err? && container.items == old(container.items)
    {
      r := container.CreateItem(Stamped(data, uuid, now));
    }

    /** `update_participant`: non-None request values are written over the
      stored participant and `updatedAt` is refreshed; None for a missing
      participant or a failed replace. */
    method UpdateParticipant(id: string, data: Document, now: string) returns (r: Option<Document>)
      requires Valid()
      modifies container
      ensures Valid()
      ensures id !in old(container.items) ==> r == None && container.items == old(container.items)
      ensures id in old(container.items) ==>
        var u := Updated(old(container.items)[id], data, {}, now);
        if IdOf(u) == Some(id) then
          r == Some(u) && container.items == old(container.items)[id := u]
        else
          r == None && container.items == old(container.items)
    {
      r := UpdateDocument(container, id, data, {}, now);
    }

    /** `delete_participant`: True when the participant existed and is gone. */
    method DeleteParticipant(id: string) returns (r: bool)
      requires Valid()
      modifies container
      ensures Valid()
      ensures r == (id in old(container.items))
      ensures container.items == old(container.items) - {id}
    {
      var deleted := container.DeleteItem(id);
      r := deleted.Ok?;
    }

    /** `get_participant_job_matches`: `[]` for a missing participant,
      otherwise its `jobMatches`, `[]` when it has none. */
    method GetParticipantJobMatches(id: string) returns (r: Json)
      requires Valid()
      ensures id !in container.items ==> r == JList([])
      ensures id in container.items ==> r == Get(container.items[id], "jobMatches", JList([]))
    {
      var participant := GetParticipant(id);
      if participant.None? {
        return JList([]);
      }
      r := Get(participant.value, "jobMatches", JList([]));
    }
  }
}
