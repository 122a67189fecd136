/** The sessions API's in-memory table: a list of session records that the
    routes search, filter, append to, update field by field, remove from and
    annotate with observations and a mock analysis. */
module SessionStore {
  import opened Wrappers
  import opened Strings
  import opened Json
  import opened Tables
  import opened Http

  /** The keys of a record made by `create_session`. */
  const SessionKeys: seq<string> := [
    "id", "title", "coachId", "coachName", "participantId", "participantName",
    "date", "startTime", "endTime", "status", "type", "location", "notes",
    "topics", "goals", "nextSteps", "completedSteps", "progressNotes", "aiSuggestions"]

  /** The fields a create request must carry, in the order they are checked. */
  const SessionRequired: seq<string> := [
    "title", "coachId", "participantId", "date", "startTime", "endTime", "type", "location"]

  /** The request has every required field (the check `create_session`
      makes before building the record). */
  predicate HasRequired(data: Document)
  {
    "title" in data && "coachId" in data && "participantId" in data && "date" in data &&
    "startTime" in data && "endTime" in data && "type" in data && "location" in data
  }

  lemma HasRequiredIffNoneMissing(data: Document)
    ensures HasRequired(data) <==> FirstMissing(data, SessionRequired).None?
  {
  }

  /** The keys the routes read from a stored record. */
  const ReadKeys: seq<string> := [
    "id", "coachId", "participantId", "status", "type", "notes", "completedSteps", "nextSteps"]

  /** A record the routes can read without a KeyError. Every record
      `create_session` makes has all of `SessionKeys`, and updates never
      remove keys, so every record in the table stays complete. */
  predicate CompleteRecord(s: Document)
  {
    forall k :: k in ReadKeys ==> k in s
  }

  predicate IsLowerHex(c: char) { '0' <= c <= '9' || 'a' <= c <= 'f' }

  /** `uuid.uuid4().hex[:8]`: eight lower-case hexadecimal digits. */
  predicate IsHex8(h: string)
  {
    |h| == 8 && forall i :: 0 <= i < 8 ==> IsLowerHex(h[i])
  }

  function NotFound(): Reply
  {
    Reply(404, ErrorBody("Session not found"))
  }

  function EmptyAnalysis(): Json
  {
    JObj(map[
      "recommendedTopics" := JList([]),
      "sentimentAnalysis" := JObj(map["positive" := JList([]), "negative" := JList([])]),
      "jobRecommendations" := JList([])])
  }

  /** The record `create_session` appends for a request that has every
      required field. */
  function NewSession(data: Document, hex8: string): (s: Document)
    requires HasRequired(data)
    ensures CompleteRecord(s)
    ensures s["id"] == JStr("session-" + hex8)
    ensures s["status"] == Get(data, "status", JStr("scheduled"))
    ensures "topics" in s && "goals" in s
    ensures s["topics"] == Get(data, "topics", JList([])) && s["goals"] == Get(data, "goals", JList([]))
    ensures s["nextSteps"] == Get(data, "nextSteps", JList([]))
    ensures s["completedSteps"] == Get(data, "completedSteps", JList([]))
  {
    map[
      "id" := JStr("session-" + hex8),
      "title" := data["title"],
      "coachId" := data["coachId"],
      "coachName" := Get(data, "coachName", JStr("")),
      "participantId" := data["participantId"],
      "participantName" := Get(data, "participantName", JStr("")),
      "date" := data["date"],
      "startTime" := data["startTime"],
      "endTime" := data["endTime"],
      "status" := Get(data, "status", JStr("scheduled")),
      "type" := data["type"],
      "location" := data["location"],
      "notes" := Get(data, "notes", JStr("")),
      "topics" := Get(data, "topics", JList([])),
      "goals" := Get(data, "goals", JList([])),
      "nextSteps" := Get(data, "nextSteps", JList([])),
      "completedSteps" := Get(data, "completedSteps", JList([])),
      "progressNotes" := Get(data, "progressNotes", JStr("")),
      "aiSuggestions" := Get(data, "aiSuggestions", EmptyAnalysis())]
  }

  // ---------------------------------------------------------------------
  // Filtering

  /** The query-string filters of `GET /sessions`; an absent or empty one
      imposes nothing. */
  datatype SessionQuery = SessionQuery(
    coachId: Option<string>, participantId: Option<string>,
    status: Option<string>, sessionType: Option<string>)

  /** `[s for s in ss if p(s)]`. */
  function Keep(ss: seq<Document>, p: Document -> bool): (r: seq<Document>)
    ensures |r| <= |ss|
    ensures forall s :: s in r <==> s in ss && p(s)
    decreases |ss|
  {
    if |ss| == 0 then []
    else
      var init := ss[..|ss| - 1];
      var x := ss[|ss| - 1];
      assert ss == init + [x];
      Keep(init, p) + (if p(x) then [x] else [])
  }

  lemma KeepSnoc(ss: seq<Document>, x: Document, p: Document -> bool)
    ensures Keep(ss + [x], p) == Keep(ss, p) + (if p(x) then [x] else [])
  {
    assert (ss + [x])[..|ss|] == ss;
  }

  /** Two comprehensions in turn keep what one comprehension with both
      conditions keeps. */
  lemma {:induction false} KeepKeep(ss: seq<Document>, p: Document -> bool, q: Document -> bool,
                                    pq: Document -> bool)
    requires forall s :: pq(s) == (p(s) && q(s))
    ensures Keep(Keep(ss, p), q) == Keep(ss, pq)
    decreases |ss|
  {
    if |ss| > 0 {
      var init := ss[..|ss| - 1];
      var x := ss[|ss| - 1];
      assert ss == init + [x];
      KeepKeep(init, p, q, pq);
      KeepSnoc(init, x, p);
      KeepSnoc(init, x, pq);
      KeepSnoc(init, x, p);
      assert pq(x) == (p(x) && q(x));
      if p(x) {
        KeepSnoc(Keep(init, p), x, q);
        assert Keep(Keep(ss, p), q) == Keep(Keep(init, p) + [x], q);
      } else {
        assert Keep(ss, p) == Keep(init, p);
        assert Keep(ss, pq) == Keep(init, pq);
      }
    }
  }

  /** The test of one filter; a record lacking the key would raise
      KeyError, which complete records rule out. */
  function Test(key: string, arg: Option<string>): Document -> bool
  {
    (s: Document) => !Given(arg) || (key in s && s[key] == JStr(arg.value))
  }

  /** One comprehension: the records whose `key` equals the argument, when
      the argument is given; all records otherwise. */
  function Where(ss: seq<Document>, key: string, arg: Option<string>): (r: seq<Document>)
    ensures forall s :: s in r <==> s in ss && (!Given(arg) || (key in s && s[key] == JStr(arg.value)))
  {
    Keep(ss, Test(key, arg))
  }

  /** A record satisfies every given filter. */
  predicate MatchesQuery(q: SessionQuery, s: Document)
  {
    Test("coachId", q.coachId)(s) && Test("participantId", q.participantId)(s) &&
    Test("status", q.status)(s) && Test("type", q.sessionType)(s)
  }

  /** The reference selection: one pass keeping the matching records in
      table order. */
  function Select(ss: seq<Document>, q: SessionQuery): (r: seq<Document>)
    ensures forall s :: s in r <==> s in ss && MatchesQuery(q, s)
  {
    Keep(ss, (s: Document) => MatchesQuery(q, s))
  }

  /** `get_sessions`: the four comprehensions in turn. */
  function GetSessions(ss: seq<Document>, q: SessionQuery): seq<Document>
  {
    var a := Where(ss, "coachId", q.coachId);
    var b := Where(a, "participantId", q.participantId);
    var c := Where(b, "status", q.status);
    Where(c, "type", q.sessionType)
  }

  /** The successive comprehensions keep exactly the records matching every
      given filter, in table order. */
  lemma GetSessionsIsSelect(ss: seq<Document>, q: SessionQuery)
    ensures GetSessions(ss, q) == Select(ss, q)
  {
    var t1, t2, t3, t4 := Test("coachId", q.coachId), Test("participantId", q.participantId),
                          Test("status", q.status), Test("type", q.sessionType);
    var t12 := (s: Document) => t1(s) && t2(s);
    var t123 := (s: Document) => t12(s) && t3(s);
    KeepKeep(ss, t1, t2, t12);
    KeepKeep(ss, t12, t3, t123);
    KeepKeep(ss, t123, t4, (s: Document) => MatchesQuery(q, s));
  }

  /** With no filter given every record is returned. */
  lemma {:induction false} KeepAll(ss: seq<Document>, p: Document -> bool)
    requires forall i :: 0 <= i < |ss| ==> p(ss[i])
    ensures Keep(ss, p) == ss
    decreases |ss|
  {
    if |ss| > 0 {
      var init, x := ss[..|ss| - 1], ss[|ss| - 1];
      assert forall i :: 0 <= i < |init| ==> init[i] == ss[i];
      KeepAll(init, p);
      assert p(x);
      assert Keep(ss, p) == Keep(init, p) + [x];
      assert init + [x] == ss;
    }
  }

  lemma GetSessionsUnfiltered(ss: seq<Document>)
    ensures GetSessions(ss, SessionQuery(None, None, None, None)) == ss
  {
    KeepAll(ss, Test("coachId", None));
    KeepAll(ss, Test("participantId", None));
    KeepAll(ss, Test("status", None));
    KeepAll(ss, Test("type", None));
  }

  // ---------------------------------------------------------------------
  // Record updates

  /** `update_session`'s loop: every request key the record already has,
      except `id`, takes the request's value. */
  function Merged(s: Document, data: Document): (r: Document)
    ensures r.Keys == s.Keys
    ensures "id" in s ==> r["id"] == s["id"]
    ensures forall k :: k in s && k in data && k != "id" ==> r[k] == data[k]
    ensures forall k :: k in s && k !in data ==> r[k] == s[k]
  {
    map k | k in s :: if k in data && k != "id" then data[k] else s[k]
  }

  /** The loop itself, one request key at a time. */
  method MergeLoop(record: Document, data: Document) returns (s: Document)
    ensures s == Merged(record, data)
  {
    s := record;
    var keys := data.Keys;
    while keys != {}
      invariant keys <= data.Keys
      invariant s.Keys == record.Keys
      invariant forall k :: k in s ==>
        s[k] == if k in data && k !in keys && k != "id" then data[k] else record[k]
      decreases keys
    {
      var k :| k in keys;
      if k in s && k != "id" {
        s := s[k := data[k]];
      }
      keys := keys - {k};
    }
  }

  /** The notes step: truthy notes grow by a blank line and the text of the
      new notes (`+=`, which fails on a value that cannot be added to);
      falsy notes are replaced by the new notes. */
  function NotesStep(s: Document, notes: Json): (r: Result<Document>)
    requires "notes" in s
    ensures !Truthy(s["notes"]) ==> r == Ok(s["notes" := notes])
    ensures Truthy(s["notes"]) && s["notes"].JStr? ==>
      r == Ok(s["notes" := JStr(s["notes"].s + "\n\n" + Show(notes))])
    ensures Truthy(s["notes"]) && s["notes"].JList? ==>
      r == Ok(s["notes" := JList(s["notes"].items + Chars("\n\n" + Show(notes)))])
    ensures Truthy(s["notes"]) && !s["notes"].JStr? && !s["notes"].JList? ==> r == Err("TypeError")
  {
    if Truthy(s["notes"]) then
      match AddText(s["notes"], "\n\n" + Show(notes))
      case Ok(grown) =>
        assert s["notes"].JStr? ==> s["notes"].s + ("\n\n" + Show(notes)) == s["notes"].s + "\n\n" + Show(notes);
        Ok(s["notes" := grown])
      case Err(e) => Err(e)
    else Ok(s["notes" := notes])
  }

  /** An `extend` step on one of the step lists, when the request has it:
      the list grows by what iterating the request's value yields (a
      list's items, a string's characters, a dict's keys). */
  function StepsStep(s: Document, key: string, data: Document): (r: Result<Document>)
    requires key in s
    ensures key !in data ==> r == Ok(s)
    ensures key in data && s[key].JList? && Items(data[key]).Ok? ==>
      r == Ok(s[key := JList(s[key].items + Items(data[key]).value)])
    ensures key in data && s[key].JList? && Items(data[key]).Err? ==> r == Err("TypeError")
    ensures key in data && !s[key].JList? ==> r == Err("AttributeError")
  {
    if key in data then
      match Extend(s[key], data[key])
      case Ok(longer) => Ok(s[key := longer])
      case Err(e) => Err(e)
    else Ok(s)
  }

  function ProgressStep(s: Document, data: Document): (r: Document)
    ensures "progressNotes" in data ==> r == s["progressNotes" := data["progressNotes"]]
    ensures "progressNotes" !in data ==> r == s
  {
    if "progressNotes" in data then s["progressNotes" := data["progressNotes"]] else s
  }

  /** The record after `add_observations`, and the exception that stopped it
      part-way, if any. Each step changes the record before the next one
      runs, so a failure keeps the earlier changes. */
  function Observed(s: Document, data: Document): (r: (Document, Option<string>))
    requires CompleteRecord(s) && "notes" in data
    ensures CompleteRecord(r.0) && s.Keys <= r.0.Keys <= s.Keys + {"progressNotes"}
  {
    match NotesStep(s, data["notes"])
    case Err(e) => (s, Some(e))
    case Ok(s1) =>
      var s2 := ProgressStep(s1, data);
      match StepsStep(s2, "completedSteps", data)
      case Err(e) => (s2, Some(e))
      case Ok(s3) =>
        match StepsStep(s3, "nextSteps", data)
        case Err(e) => (s3, Some(e))
        case Ok(s4) => (s4, None)
  }

  /** What iterating the request's value yields, nothing when it is absent. */
  function StepItems(data: Document, key: string): seq<Json>
  {
    if key in data && Items(data[key]).Ok? then Items(data[key]).value else []
  }

  /** For text notes, list-valued stored steps and iterable requested steps
      (lists, strings or dicts): the notes gain the new text after a blank
      line (or become it when they were empty), the progress notes are
      replaced, both step lists grow at the end by what the request's value
      yields, and nothing else changes. */
  lemma ObservedOnTextAndLists(s: Document, data: Document)
    requires CompleteRecord(s) && "notes" in data && "progressNotes" in s
    requires s["notes"].JStr? && s["completedSteps"].JList? && s["nextSteps"].JList?
    requires "completedSteps" in data ==> Items(data["completedSteps"]).Ok?
    requires "nextSteps" in data ==> Items(data["nextSteps"]).Ok?
    ensures Observed(s, data).1 == None
    ensures var r := Observed(s, data).0;
      r.Keys == s.Keys &&
      r["notes"] == (if s["notes"].s != "" then JStr(s["notes"].s + "\n\n" + Show(data["notes"]))
                     else data["notes"]) &&
      r["progressNotes"] == Get(data, "progressNotes", s["progressNotes"]) &&
      r["completedSteps"] == JList(s["completedSteps"].items + StepItems(data, "completedSteps")) &&
      r["nextSteps"] == JList(s["nextSteps"].items + StepItems(data, "nextSteps")) &&
      forall k :: k in s && k !in {"notes", "progressNotes", "completedSteps", "nextSteps"} ==> r[k] == s[k]
  {
    var n := NotesStep(s, data["notes"]);
    assert n.Ok?;
    var s2 := ProgressStep(n.value, data);
    var c := StepsStep(s2, "completedSteps", data);
    assert c.Ok?;
    var e := StepsStep(c.value, "nextSteps", data);
    assert e.Ok?;
    assert Observed(s, data) == (e.value, None);
  }

  /** The analysis `generate_analysis` stores, as fixed data. */
  const MockAnalysis: Json :=
    JObj(map[
      "recommendedTopics" := JList(StrList(["Communication skills", "Interview preparation", "Job search strategies"])),
      "sentimentAnalysis" := JObj(map[
        "positive" := JList(StrList(["Excited about new opportunities", "Confident in technical abilities",
                                     "Eager to learn new skills"])),
        "negative" := JList(StrList(["Concerned about transportation", "Anxious about interviews",
                                     "Worried about schedule flexibility"]))]),
      "jobRecommendations" := JList([
        Recommendation("job-789", "Sales Assistant - Department Store", 92,
                       "Compatible with previous experience and communication skills"),
        Recommendation("job-456", "Customer Service Assistant", 85,
                       "Interactive environment that matches preferences"),
        Recommendation("job-234", "Retail Associate", 78, "Good fit for skill level and interests")])])

  function Recommendation(id: string, title: string, score: int, reason: string): Json
  {
    JObj(map["id" := JStr(id), "title" := JStr(title), "match" := JInt(score), "reason" := JStr(reason)])
  }

  /** The predicate `find_session_by_id` looks for. */
  function HasId(id: string): Document -> bool
  {
    (s: Document) => "id" in s && s["id"] == JStr(id)
  }

  // ---------------------------------------------------------------------
  // The table

  class Store {
    var sessions: seq<Document>

    ghost predicate Valid()
      reads this
    {
      forall i :: 0 <= i < |sessions| ==> CompleteRecord(sessions[i])
    }

    constructor(initial: seq<Document>)
      requires forall i :: 0 <= i < |initial| ==> CompleteRecord(initial[i])
      ensures Valid() && sessions == initial
    {
      sessions := initial;
    }

    /** `find_session_by_id`: the position of the first record with the id. */
    method Find(id: string) returns (r: Option<nat>)
      requires Valid()
      ensures r == FindIndex(sessions, HasId(id))
    {
      var i := 0;
      while i < |sessions|
        invariant 0 <= i <= |sessions|
        invariant forall j :: 0 <= j < i ==> !HasId(id)(sessions[j])
      {
        if sessions[i]["id"] == JStr(id) {
          return Some(i);
        }
        i := i + 1;
      }
      return None;
    }

    /** `GET /sessions`. */
    method List(q: SessionQuery) returns (r: Reply)
      requires Valid()
      ensures r == Reply(200, JList(Objs(Select(sessions, q))))
    {
      GetSessionsIsSelect(sessions, q);
      r := Reply(200, JList(Objs(GetSessions(sessions, q))));
    }

    /** `GET /sessions/<id>`. */
    method Get(id: string) returns (r: Reply)
      requires Valid()
      ensures FindIndex(sessions, HasId(id)).None? ==> r == NotFound()
      ensures FindIndex(sessions, HasId(id)).Some? ==>
        r == Reply(200, JObj(sessions[FindIndex(sessions, HasId(id)).value]))
    {
      var i := Find(id);
      if i.None? {
        return NotFound();
      }
      r := Reply(200, JObj(sessions[i.value]));
    }

    /** `POST /sessions`: the first missing required field is a 400 and the
      table is unchanged; otherwise the new record is appended. */
    method Create(data: Document, hex8: string) returns (r: Reply)
      requires Valid() && IsHex8(hex8)
      modifies this`sessions
      ensures Valid()
      ensures FirstMissing(data, SessionRequired).Some? ==>
        r == MissingField(FirstMissing(data, SessionRequired).value) && sessions == old(sessions)
      ensures FirstMissing(data, SessionRequired).None? ==>
        sessions == old(sessions) + [NewSession(data, hex8)] &&
        r == Reply(201, JObj(NewSession(data, hex8)))
    {
      var missing := CheckRequired(data, SessionRequired);
      if missing.Some? {
        return MissingField(missing.value);
      }
      var s := NewSession(data, hex8);
      sessions := sessions + [s];
      r := Reply(201, JObj(s));
    }

    /** `PUT /sessions/<id>`: 404 for an unknown id; otherwise every request
      key the record already has, except `id`, is overwritten in turn. */
    method Update(id: string, data: Document) returns (r: Reply)
      requires Valid()
      modifies this`sessions
      ensures Valid()
      ensures FindIndex(old(sessions), HasId(id)).None? ==> r == NotFound() && sessions == old(sessions)
      ensures FindIndex(old(sessions), HasId(id)).Some? ==>
        var i := FindIndex(old(sessions), HasId(id)).value;
        sessions == old(sessions)[i := Merged(old(sessions)[i], data)] &&
        r == Reply(200, JObj(sessions[i]))
    {
      var found := Find(id);
      if found.None? {
        return NotFound();
      }
      var i := found.value;
      var s := MergeLoop(sessions[i], data);
      sessions := sessions[i := s];
      r := Reply(200, JObj(s));
    }

    /** `DELETE /sessions/<id>`: removes exactly the first record with the
      id, or gives 404 and changes nothing. */
    method Delete(id: string) returns (r: Reply)
      requires Valid()
      modifies this`sessions
      ensures Valid()
      ensures FindIndex(old(sessions), HasId(id)).None? ==> r == NotFound() && sessions == old(sessions)
      ensures FindIndex(old(sessions), HasId(id)).Some? ==>
        var i := FindIndex(old(sessions), HasId(id)).value;
        sessions == old(sessions)[..i] + old(sessions)[i + 1..] &&
        r == Reply(200, JObj(map["message" := JStr("Session deleted successfully")]))
    {
      var found := Find(id);
      if found.None? {
        return NotFound();
      }
      var i := found.value;
      sessions := sessions[..i] + sessions[i + 1..];
      r := Reply(200, JObj(map["message" := JStr("Session deleted successfully")]));
    }

    /** Replaces record `i`. */
    method Store(i: nat, s: Document)
      requires Valid() && i < |sessions| && CompleteRecord(s)
      modifies this`sessions
      ensures Valid() && sessions == old(sessions)[i := s]
    {
      sessions := sessions[i := s];
    }

    /** `POST /sessions/<id>/observations`: 404 for an unknown id, 400 when
      the request has no notes, otherwise the steps of `Observed` applied
      to the record in place, one after the other. */
    method AddObservations(id: string, data: Document) returns (r: Reply)
      requires Valid()
      modifies this`sessions
      ensures Valid()
      ensures FindIndex(old(sessions), HasId(id)).None? ==> r == NotFound() && sessions == old(sessions)
      ensures FindIndex(old(sessions), HasId(id)).Some? && "notes" !in data ==>
        r == MissingField("notes") && sessions == old(sessions)
      ensures FindIndex(old(sessions), HasId(id)).Some? && "notes" in data ==>
        var i := FindIndex(old(sessions), HasId(id)).value;
        var (s, failure) := Observed(old(sessions)[i], data);
        sessions == old(sessions)[i := s] &&
        r == if failure.Some? then Raised(failure.value) else Reply(200, JObj(s))
    {
      var found := Find(id);
      if found.None? {
        return NotFound();
      }
      if "notes" !in data {
        return MissingField("notes");
      }
      r := Observe(found.value, data);
    }

    /** The observation steps applied to the record at `i`, each stored as
      it is made; the first failure leaves the steps before it in place. */
    method Observe(i: nat, data: Document) returns (r: Reply)
      requires Valid() && i < |sessions| && "notes" in data
      modifies this`sessions
      ensures Valid()
      ensures var (s, failure) := Observed(old(sessions)[i], data);
        sessions == old(sessions)[i := s] &&
        r == if failure.Some? then Raised(failure.value) else Reply(200, JObj(s))
    {
      var s := sessions[i];
      var notes := NotesStep(s, data["notes"]);
      if notes.Err? {
        return Raised(notes.error);
      }
      s := ProgressStep(notes.value, data);
      Store(i, s);
      var done := StepsStep(s, "completedSteps", data);
      if done.Err? {
        return Raised(done.error);
      }
      s := done.value;
      Store(i, s);
      var next := StepsStep(s, "nextSteps", data);
      if next.Err? {
        return Raised(next.error);
      }
      s := next.value;
      Store(i, s);
      r := Reply(200, JObj(s));
    }

    /** `POST /sessions/<id>/analysis`: 404 for an unknown id, 400 with
      nothing changed when the notes are falsy, otherwise the mock analysis
      replaces the record's AI suggestions. */
    method GenerateAnalysis(id: string) returns (r: Reply)
      requires Valid()
      modifies this`sessions
      ensures Valid()
      ensures FindIndex(old(sessions), HasId(id)).None? ==> r == NotFound() && sessions == old(sessions)
      ensures FindIndex(old(sessions), HasId(id)).Some? ==>
        var i := FindIndex(old(sessions), HasId(id)).value;
        if !Truthy(old(sessions)[i]["notes"]) then
          r == Reply(400, ErrorBody("Session has no notes to analyze")) && sessions == old(sessions)
        else
          sessions == old(sessions)[i := old(sessions)[i]["aiSuggestions" := MockAnalysis]] &&
          r == Reply(200, MockAnalysis)
    {
      var found := Find(id);
      if found.None? {
        return NotFound();
      }
      var i := found.value;
      if !Truthy(sessions[i]["notes"]) {
        return Reply(400, ErrorBody("Session has no notes to analyze"));
      }
      var analysis := MockAnalysis;
      sessions := sessions[i := sessions[i]["aiSuggestions" := analysis]];
      r := Reply(200, analysis);
    }
  }
}
