/** The job-match repository over the document container: creating a match
    with its defaults and references, the protected field-by-field update,
    the status change with its history entry, and the compatibility of a
    stored participant and job. */
module JobMatchRepository {
  import opened Wrappers
  import opened Json
  import opened Cosmos
  import Matching = JobMatchingService

  const Considering := "considering"
  const CoachAssigned := "coach-assigned"
  const InitialNote := "Initial match created"

  /** The fields an update never writes. */
  const Protected: set<string> := {"id", "participantId", "jobId"}

  /** The fields the reference queries select. */
  const JobReferenceFields: seq<string> :=
    ["title", "employer", "companyName", "location", "employmentType", "shortDescription", "salary", "postedDate"]
  const ParticipantReferenceFields: seq<string> := ["fullName", "email", "disabilityType", "currentStatus"]

  /** A reference query: the selected fields the stored document has, or
      None when no document has that id. */
  function ReferenceOf(store: map<string, Document>, id: Json, fields: seq<string>): (r: Option<Document>)
    ensures r.Some? <==> id.JStr? && id.s in store
    ensures r.Some? ==> forall k :: k in r.value <==> k in fields && k in store[id.s]
    ensures r.Some? ==> forall k :: k in r.value ==> r.value[k] == store[id.s][k]
  {
    if id.JStr? && id.s in store then Some(map k | k in fields && k in store[id.s] :: store[id.s][k])
    else None
  }

  /** `if key not in d and idKey in d: ref = <lookup>(d[idKey]); if ref:
      d[key] = ref`. */
  function WithReference(d: Document, key: string, idKey: string,
                         store: map<string, Document>, fields: seq<string>): (r: Document)
    ensures forall j :: j != key ==> (j in r <==> j in d)
    ensures forall j :: j in d ==> j in r && r[j] == d[j]
  {
    if key !in d && idKey in d then
      var ref := ReferenceOf(store, d[idKey], fields);
      if ref.Some? && Truthy(JObj(ref.value)) then d[key := JObj(ref.value)] else d
    else d
  }

  /** The first history entry of a new match. */
  function InitialEntry(status: Json, now: string): Json
  {
    JObj(map["status" := status, "date" := JStr(now), "notes" := JStr(InitialNote)])
  }

  /** The request after the id, the time stamps and the source. */
  function Sourced(data: Document, uuid: string, now: string): Document
  {
    WithDefault(Stamped(data, uuid, now), "source", JStr(CoachAssigned))
  }

  /** The request after the history. */
  function Historied(data: Document, uuid: string, now: string): Document
  {
    var d := Sourced(data, uuid, now);
    WithDefault(d, "statusHistory", JList([InitialEntry(Get(d, "status", JStr(Considering)), now)]))
  }

  /** One reference stage: a reference already present is kept; otherwise
      one is added exactly when the id names a stored document whose
      selected fields are not all missing. */
  lemma ReferenceStage(d: Document, key: string, idKey: string,
                       store: map<string, Document>, fields: seq<string>)
    ensures var r := WithReference(d, key, idKey, store, fields);
      var ref := ReferenceOf(store, Get(d, idKey, JNull), fields);
      (key in d ==> r[key] == d[key]) &&
      (key !in d ==>
        (key in r <==> idKey in d && ref.Some? && |ref.value| > 0) &&
        (key in r ==> r[key] == JObj(ref.value)))
  {
  }

  /** Historied changes only the five fields it fills. */
  lemma HistoriedKeeps(data: Document, uuid: string, now: string, k: string)
    requires k != "id" && k != "createdAt" && k != "updatedAt" && k != "source" && k != "statusHistory"
    ensures k in Historied(data, uuid, now) <==> k in data
    ensures k in data ==> Historied(data, uuid, now)[k] == data[k]
  {
  }

  /** `create_job_match`'s body over the jobs and participants stores the
      reference queries read. */
  function NewJobMatch(data: Document, uuid: string, now: string,
                       jobs: map<string, Document>, participants: map<string, Document>): Document
  {
    var d := Historied(data, uuid, now);
    var withJob := WithReference(d, "jobReference", "jobId", jobs, JobReferenceFields);
    var withParticipant := WithReference(withJob, "participantReference", "participantId",
                                         participants, ParticipantReferenceFields);
    WithDefault(withParticipant, "compatibilityElements", JList([]))
  }

  /** The id and the source are filled only when absent, and both time
      stamps are the same reading. */
  lemma NewJobMatchStamps(data: Document, uuid: string, now: string,
                          jobs: map<string, Document>, participants: map<string, Document>)
    ensures var r := NewJobMatch(data, uuid, now, jobs, participants);
      r["id"] == Get(data, "id", JStr(uuid)) &&
      r["createdAt"] == JStr(now) && r["updatedAt"] == JStr(now) &&
      r["source"] == Get(data, "source", JStr(CoachAssigned))
  {
  }

  /** Without a history in the request, the history is exactly one entry
      carrying the request's status (`considering` without one), the
      creation time and the note `Initial match created`; a given history
      is kept. */
  lemma NewJobMatchHistory(data: Document, uuid: string, now: string,
                           jobs: map<string, Document>, participants: map<string, Document>)
    ensures NewJobMatch(data, uuid, now, jobs, participants)["statusHistory"] ==
      Get(data, "statusHistory", JList([InitialEntry(Get(data, "status", JStr(Considering)), now)]))
  {
    var src := Sourced(data, uuid, now);
    assert Get(src, "status", JStr(Considering)) == Get(data, "status", JStr(Considering));
    var d := Historied(data, uuid, now);
    assert "statusHistory" in d && d["statusHistory"] ==
      Get(data, "statusHistory", JList([InitialEntry(Get(data, "status", JStr(Considering)), now)]));
    var withJob := WithReference(d, "jobReference", "jobId", jobs, JobReferenceFields);
    var withParticipant := WithReference(withJob, "participantReference", "participantId",
                                         participants, ParticipantReferenceFields);
    assert withParticipant["statusHistory"] == d["statusHistory"];
  }

  /** The compatibility elements default to the empty list, and every other
      field of the request is kept. */
  lemma NewJobMatchKeeps(data: Document, uuid: string, now: string,
                         jobs: map<string, Document>, participants: map<string, Document>)
    ensures var r := NewJobMatch(data, uuid, now, jobs, participants);
      r["compatibilityElements"] == Get(data, "compatibilityElements", JList([])) &&
      forall k :: k in data && k !in {"id", "createdAt", "updatedAt"} ==> r[k] == data[k]
  {
    var r := NewJobMatch(data, uuid, now, jobs, participants);
    NewJobMatchElements(data, uuid, now, jobs, participants);
    forall k | k in data && k !in {"id", "createdAt", "updatedAt"} ensures k in r && r[k] == data[k] {
      NewJobMatchKeepsKey(data, uuid, now, jobs, participants, k);
    }
  }

  lemma NewJobMatchElements(data: Document, uuid: string, now: string,
                            jobs: map<string, Document>, participants: map<string, Document>)
    ensures var r := NewJobMatch(data, uuid, now, jobs, participants);
      "compatibilityElements" in r &&
      r["compatibilityElements"] == Get(data, "compatibilityElements", JList([]))
  {
    var k := "compatibilityElements";
    var d := Historied(data, uuid, now);
    var withJob := WithReference(d, "jobReference", "jobId", jobs, JobReferenceFields);
    var withParticipant := WithReference(withJob, "participantReference", "participantId",
                                         participants, ParticipantReferenceFields);
    HistoriedKeeps(data, uuid, now, k);
    assert Get(withParticipant, k, JList([])) == Get(data, k, JList([]));
  }

  /** One kept field at a time. */
  lemma NewJobMatchKeepsKey(data: Document, uuid: string, now: string,
                            jobs: map<string, Document>, participants: map<string, Document>, k: string)
    requires k in data && k != "id" && k != "createdAt" && k != "updatedAt"
    ensures k in NewJobMatch(data, uuid, now, jobs, participants)
    ensures NewJobMatch(data, uuid, now, jobs, participants)[k] == data[k]
  {
    var d := Historied(data, uuid, now);
    var withJob := WithReference(d, "jobReference", "jobId", jobs, JobReferenceFields);
    var withParticipant := WithReference(withJob, "participantReference", "participantId",
                                         participants, ParticipantReferenceFields);
    if k != "source" && k != "statusHistory" {
      HistoriedKeeps(data, uuid, now, k);
    }
    assert k in d && d[k] == data[k];
    assert k in withParticipant && withParticipant[k] == data[k];
  }

  /** A job reference is kept when the request has one; otherwise it is
      added exactly when the request names a stored job whose reference has
      at least one of the selected fields. */
  lemma NewJobMatchJobReference(data: Document, uuid: string, now: string,
                                jobs: map<string, Document>, participants: map<string, Document>)
    ensures var r := NewJobMatch(data, uuid, now, jobs, participants);
      var ref := ReferenceOf(jobs, Get(data, "jobId", JNull), JobReferenceFields);
      ("jobReference" in data ==> r["jobReference"] == data["jobReference"]) &&
      ("jobReference" !in data ==>
        ("jobReference" in r <==> "jobId" in data && ref.Some? && |ref.value| > 0) &&
        ("jobReference" in r ==> r["jobReference"] == JObj(ref.value)))
  {
    var h := Historied(data, uuid, now);
    HistoriedKeeps(data, uuid, now, "jobReference");
    HistoriedKeeps(data, uuid, now, "jobId");
    assert Get(h, "jobId", JNull) == Get(data, "jobId", JNull);
    ReferenceStage(h, "jobReference", "jobId", jobs, JobReferenceFields);
  }

  /** The same for the participant reference. */
  lemma NewJobMatchParticipantReference(data: Document, uuid: string, now: string,
                                        jobs: map<string, Document>, participants: map<string, Document>)
    ensures var r := NewJobMatch(data, uuid, now, jobs, participants);
      var ref := ReferenceOf(participants, Get(data, "participantId", JNull), ParticipantReferenceFields);
      ("participantReference" in data ==> r["participantReference"] == data["participantReference"]) &&
      ("participantReference" !in data ==>
        ("participantReference" in r <==> "participantId" in data && ref.Some? && |ref.value| > 0) &&
        ("participantReference" in r ==> r["participantReference"] == JObj(ref.value)))
  {
    var h := Historied(data, uuid, now);
    var withJob := WithReference(h, "jobReference", "jobId", jobs, JobReferenceFields);
    HistoriedKeeps(data, uuid, now, "participantReference");
    HistoriedKeeps(data, uuid, now, "participantId");
    assert Get(withJob, "participantId", JNull) == Get(data, "participantId", JNull);
    assert "participantReference" in withJob <==> "participantReference" in data;
    ReferenceStage(withJob, "participantReference", "participantId", participants, ParticipantReferenceFields);
  }

  /** The first steps of `create_job_match`: id, time stamps, source and
      history filled in place. */
  method FillDefaults(data: Document, uuid: string, now: string) returns (body: Document)
    ensures body == Historied(data, uuid, now)
  {
    body := data;
    if "id" !in body {
      body := body["id" := JStr(uuid)];
    }
    body := body["createdAt" := JStr(now)]["updatedAt" := JStr(now)];
    if "source" !in body {
      body := body["source" := JStr(CoachAssigned)];
    }
    if "statusHistory" !in body {
      body := body["statusHistory" := JList([InitialEntry(Get(body, "status", JStr(Considering)), now)])];
    }
  }

  /** `if k not in d: d[k] = v`. */
  method AddDefault(d: Document, k: string, v: Json) returns (body: Document)
    ensures body == WithDefault(d, k, v)
  {
    body := d;
    if k !in body {
      body := body[k := v];
    }
  }

  /** One reference step of `create_job_match`: the lookup runs only when
      the reference is missing and the id is present. */
  method AddReference(d: Document, key: string, idKey: string,
                      store: map<string, Document>, fields: seq<string>) returns (body: Document)
    ensures body == WithReference(d, key, idKey, store, fields)
  {
    body := d;
    if key !in body && idKey in body {
      var ref := ReferenceOf(store, body[idKey], fields);
      if ref.Some? && Truthy(JObj(ref.value)) {
        body := body[key := JObj(ref.value)];
      }
    }
  }

  // ---------------------------------------------------------------------
  // Status changes

  /** The new history entry: the status and the time, and the notes only
      when they are truthy. */
  function StatusEntry(status: string, notes: Option<string>, now: string): (r: Document)
    ensures r.Keys == {"status", "date"} + (if Given(notes) then {"notes"} else {})
    ensures r["status"] == JStr(status) && r["date"] == JStr(now)
    ensures Given(notes) ==> r["notes"] == JStr(notes.value)
  {
    var entry := map["status" := JStr(status), "date" := JStr(now)];
    if Given(notes) then entry["notes" := JStr(notes.value)] else entry
  }

  /** `list.append`: only a list has one. */
  function Appended(history: Json, entry: Json): (r: Result<Json>)
  {
    match history
    case JList(items) => Ok(JList(items + [entry]))
    case _ => Err("AttributeError")
  }

  /** The stored match after `update_job_match_status`, or the exception
      of appending to a `statusHistory` that is not a list. */
  function StatusChanged(existing: Document, status: string, notes: Option<string>, now: string): Result<Document>
  {
    var d := existing["status" := JStr(status)]["updatedAt" := JStr(now)];
    var history := Get(d, "statusHistory", JList([]));
    match Appended(history, JObj(StatusEntry(status, notes, now)))
    case Err(e) => Err(e)
    case Ok(h) => Ok(d["statusHistory" := h])
  }

  /** A status change sets the status and the time, and appends exactly one
      entry carrying the new status at the end of the history (an absent
      history counts as empty); nothing else changes. It fails exactly when
      the stored history is not a list. */
  lemma StatusChangedAppends(existing: Document, status: string, notes: Option<string>, now: string)
    ensures StatusChanged(existing, status, notes, now).Err? <==>
      "statusHistory" in existing && !existing["statusHistory"].JList?
    ensures StatusChanged(existing, status, notes, now).Ok? ==>
      var r := StatusChanged(existing, status, notes, now).value;
      var before := if "statusHistory" in existing then existing["statusHistory"].items else [];
      r.Keys == existing.Keys + {"status", "updatedAt", "statusHistory"} &&
      r["status"] == JStr(status) && r["updatedAt"] == JStr(now) &&
      r["statusHistory"] == JList(before + [JObj(StatusEntry(status, notes, now))]) &&
      forall k :: k in existing && k !in {"status", "updatedAt", "statusHistory"} ==> r[k] == existing[k]
  {
  }

  // ---------------------------------------------------------------------
  // The repository

  class JobMatchRepository {
    const container: Container
    const jobs: Container
    const participants: Container

    ghost predicate Valid()
      reads this, container, jobs, participants
    {
      container.Valid() && jobs.Valid() && participants.Valid()
    }

    constructor(container: Container, jobs: Container, participants: Container)
      requires container.Valid() && jobs.Valid() && participants.Valid()
      ensures this.container == container && this.jobs == jobs && this.participants == participants
      ensures Valid()
    {
      this.container := container;
      this.jobs := jobs;
      this.participants := participants;
    }

    /** `get_job_match`: the match with that id, or None. */
    method GetJobMatch(id: string) returns (r: Option<Document>)
      requires Valid()
      ensures r == if id in container.items then Some(container.items[id]) else None
    {
      var read := container.ReadItem(id);
      r := if read.Ok? then Some(read.value) else None;
    }

    /** `create_job_match`: the request completed field by field, the
      references looked up in the jobs and participants containers, then
      created; a failure of the container escapes to the caller. */
    method CreateJobMatch(data: Document, uuid: string, now: string) returns (r: Result<Document>)
      requires Valid()
      modifies container
      ensures Valid()
      ensures var body := NewJobMatch(data, uuid, now, old(jobs.items), old(participants.items));
        if IdOf(body).Some? && IdOf(body).value !in old(container.items) then
          r == Ok(body) && container.items == old(container.items)[IdOf(body).value := body]
        else
          r.Err? && container.items == old(container.items)
    {
      var body := CompletedMatch(data, uuid, now);
      r := container.CreateItem(body);
    }

    /** The steps of `create_job_match` that fill the request in. */
    method CompletedMatch(data: Document, uuid: string, now: string) returns (body: Document)
      ensures body == NewJobMatch(data, uuid, now, jobs.items, participants.items)
    {
      body := FillDefaults(data, uuid, now);
      body := AddReference(body, "jobReference", "jobId", jobs.items, JobReferenceFields);
      body := AddReference(body, "participantReference", "participantId",
                           participants.items, ParticipantReferenceFields);
      body := AddDefault(body, "compatibilityElements", JList([]));
    }

    /** `update_job_match`: non-None request values are written over the
      stored match except `id`, `participantId` and `jobId`, and
      `updatedAt` is refreshed; None for a missing match. */
    method UpdateJobMatch(id: string, data: Document, now: string) returns (r: Option<Document>)
      requires Valid()
      modifies container
      ensures Valid()
      ensures id !in old(container.items) ==> r == None && container.items == old(container.items)
      ensures id in old(container.items) ==>
        var u := Updated(old(container.items)[id], data, Protected, now);
        r == Some(u) && container.items == old(container.items)[id := u] &&
        forall k :: k in Protected && k in old(container.items)[id] ==> u[k] == old(container.items)[id][k]
    {
      if id in container.items {
        UpdatedId(container.items[id], data, Protected, now, id);
      }
      r := UpdateDocument(container, id, data, Protected, now);
    }

    /** `update_job_match_status`: None for a missing match or a history
      that is not a list; otherwise the changed match is stored and
      returned. */
    method UpdateJobMatchStatus(id: string, status: string, notes: Option<string>, now: string)
      returns (r: Option<Document>)
      requires Valid()
      modifies container
      ensures Valid()
      ensures id !in old(container.items) ==> r == None && container.items == old(container.items)
      ensures id in old(container.items) ==>
        var changed := StatusChanged(old(container.items)[id], status, notes, now);
        (changed.Err? ==> r == None && container.items == old(container.items)) &&
        (changed.Ok? ==> r == Some(changed.value) && container.items == old(container.items)[id := changed.value])
    {
      var found := GetJobMatch(id);
      if found.None? {
        return None;
      }
      var existing := found.value;
      existing := existing["status" := JStr(status)]["updatedAt" := JStr(now)];
      ghost var d := existing;
      var entry := StatusEntry(status, notes, now);
      if "statusHistory" !in existing {
        existing := existing["statusHistory" := JList([])];
      }
      assert existing["statusHistory"] == Get(d, "statusHistory", JList([]));
      if !existing["statusHistory"].JList? {
        assert StatusChanged(found.value, status, notes, now).Err?;
        return None;
      }
      existing := existing["statusHistory" := JList(existing["statusHistory"].items + [JObj(entry)])];
      assert existing == d["statusHistory" := JList(Get(d, "statusHistory", JList([])).items + [JObj(entry)])];
      assert StatusChanged(found.value, status, notes, now) == Ok(existing);
      assert IdOf(existing) == Some(id);
      var replaced := container.ReplaceItem(id, existing);
      r := if replaced.Ok? then Some(replaced.value) else None;
    }

    /** `calculate_compatibility`: None when the participant or the job is
      missing or the scoring raises, otherwise the scoring service's
      result. */
    method CalculateCompatibility(participantId: string, jobId: string) returns (r: Option<Document>)
      requires Valid()
      ensures participantId !in participants.items || jobId !in jobs.items ==> r == None
      ensures participantId in participants.items && jobId in jobs.items ==>
        var c := Matching.Compatibility(participants.items[participantId], jobs.items[jobId]);
        r == if c.Ok? then Some(c.value) else None
    {
      var participant := participants.ReadItem(participantId);
      var job := jobs.ReadItem(jobId);
      if participant.Err? || job.Err? {
        return None;
      }
      var c := Matching.CalculateCompatibility(participant.value, job.value);
      r := if c.Ok? then Some(c.value) else None;
    }
  }
}
