/** The job-match routes: the choice of listing from the query string, the
    create route's defaults and compatibility, the update and status routes'
    guards, the ranked suggestions for a participant, and the creation of a
    system-suggested match. The handlers call the repositories; the query
    the suggestions start from is a parameter. */
module JobMatchesRoutes {
  import opened Wrappers
  import opened Strings
  import opened Json
  import opened Http
  import opened Cosmos
  import opened Sorting
  import Matches = JobMatchRepository
  import Jobs = JobRepository
  import Matching = JobMatchingService
  import Search = AISearchService

  const Suggested := "suggested"
  const SystemGenerated := "system-generated"
  const DefaultLimit := 10
  const MatchRequired: seq<string> := ["participantId", "jobId"]

  // ---------------------------------------------------------------------
  // GET /job-matches

  /** The repository listing the GET route asks for. */
  datatype Listing = ForParticipant(participantId: string) | ForJob(jobId: string)
                   | ByStatus(status: string) | AllMatches

  /** A participant filter wins over a job filter, which wins over a status
      filter; an empty parameter counts as absent. */
  function ListingOf(participantId: Option<string>, jobId: Option<string>, status: Option<string>): (r: Listing)
    ensures r.ForParticipant? <==> Given(participantId)
    ensures r.ForJob? <==> !Given(participantId) && Given(jobId)
    ensures r.ByStatus? <==> !Given(participantId) && !Given(jobId) && Given(status)
    ensures r.ForParticipant? ==> r.participantId == participantId.value
    ensures r.ForJob? ==> r.jobId == jobId.value
    ensures r.ByStatus? ==> r.status == status.value
  {
    if Given(participantId) then ForParticipant(participantId.value)
    else if Given(jobId) then ForJob(jobId.value)
    else if Given(status) then ByStatus(status.value)
    else AllMatches
  }

  // ---------------------------------------------------------------------
  // POST /job-matches

  /** Compatibility is computed only when the score or the elements are
      missing. */
  predicate NeedsCompatibility(d: Document)
  {
    "matchScore" !in d || "compatibilityElements" !in d
  }

  /** What `calculate_compatibility` returns for two ids: None unless both
      name stored documents and the scoring succeeds. */
  function CompatibilityIn(participants: map<string, Document>, jobs: map<string, Document>,
                           participantId: Json, jobId: Json): (r: Option<Document>)
    ensures r.Some? ==> participantId.JStr? && jobId.JStr? && participantId.s in participants && jobId.s in jobs
  {
    if participantId.JStr? && jobId.JStr? && participantId.s in participants && jobId.s in jobs then
      match Matching.Compatibility(participants[participantId.s], jobs[jobId.s])
      case Ok(c) => Some(c)
      case Err(_) => None
    else None
  }

  /** The request after the route's own steps: `status` and `source`
      defaulted, then the score and the elements copied from a truthy
      compatibility when they were needed. */
  function Prepared(data: Document, compatibility: Option<Document>): (r: Result<Document>)
  {
    var d := WithDefault(WithDefault(data, "status", JStr(Matches.Considering)), "source", JStr(Matches.CoachAssigned));
    if NeedsCompatibility(data) && Found(compatibility) then
      var c := compatibility.value;
      if "matchScore" in c && "compatibilityElements" in c then
        Ok(d["matchScore" := c["matchScore"]]["compatibilityElements" := c["compatibilityElements"]])
      else Err("KeyError")
    else Ok(d)
  }

  /** The status defaults to `considering` and the source to
      `coach-assigned`; a request with both score and elements keeps them,
      as it keeps every field the route does not fill; a truthy
      compatibility writes both of its fields and none is written
      otherwise. */
  lemma PreparedFields(data: Document, compatibility: Option<Document>)
    requires Prepared(data, compatibility).Ok?
    ensures var d := Prepared(data, compatibility).value;
      d["status"] == Get(data, "status", JStr(Matches.Considering)) &&
      d["source"] == Get(data, "source", JStr(Matches.CoachAssigned)) &&
      (forall k :: k in data && k != "matchScore" && k != "compatibilityElements" ==> d[k] == data[k]) &&
      (!NeedsCompatibility(data) ==> d["matchScore"] == data["matchScore"] &&
                                     d["compatibilityElements"] == data["compatibilityElements"]) &&
      (NeedsCompatibility(data) && Found(compatibility) ==>
         d["matchScore"] == compatibility.value["matchScore"] &&
         d["compatibilityElements"] == compatibility.value["compatibilityElements"]) &&
      (NeedsCompatibility(data) && !Found(compatibility) ==>
         ("matchScore" in d <==> "matchScore" in data) &&
         ("compatibilityElements" in d <==> "compatibilityElements" in data))
  {
    PreparedDefaults(data, compatibility);
    PreparedScore(data, compatibility);
  }

  lemma PreparedDefaults(data: Document, compatibility: Option<Document>)
    requires Prepared(data, compatibility).Ok?
    ensures var d := Prepared(data, compatibility).value;
      d["status"] == Get(data, "status", JStr(Matches.Considering)) &&
      d["source"] == Get(data, "source", JStr(Matches.CoachAssigned)) &&
      (forall k :: k in data && k != "matchScore" && k != "compatibilityElements" ==> d[k] == data[k])
  {
    var d1 := WithDefault(data, "status", JStr(Matches.Considering));
    var d2 := WithDefault(d1, "source", JStr(Matches.CoachAssigned));
    assert d2["status"] == d1["status"];
    var d := Prepared(data, compatibility).value;
    forall k | k in data && k != "matchScore" && k != "compatibilityElements" ensures d[k] == data[k] {
      assert d[k] == d2[k];
    }
  }

  lemma PreparedScore(data: Document, compatibility: Option<Document>)
    requires Prepared(data, compatibility).Ok?
    ensures var d := Prepared(data, compatibility).value;
      (!NeedsCompatibility(data) ==> d["matchScore"] == data["matchScore"] &&
                                     d["compatibilityElements"] == data["compatibilityElements"]) &&
      (NeedsCompatibility(data) && Found(compatibility) ==>
         d["matchScore"] == compatibility.value["matchScore"] &&
         d["compatibilityElements"] == compatibility.value["compatibilityElements"]) &&
      (NeedsCompatibility(data) && !Found(compatibility) ==>
         ("matchScore" in d <==> "matchScore" in data) &&
         ("compatibilityElements" in d <==> "compatibilityElements" in data))
  {
    var d1 := WithDefault(data, "status", JStr(Matches.Considering));
    var d2 := WithDefault(d1, "source", JStr(Matches.CoachAssigned));
    assert "matchScore" in d2 <==> "matchScore" in data;
    assert "compatibilityElements" in d2 <==> "compatibilityElements" in data;
    if !NeedsCompatibility(data) {
      assert d2["matchScore"] == data["matchScore"];
      assert d2["compatibilityElements"] == data["compatibilityElements"];
    }
  }

  /** A compatibility the scoring computed always carries both fields, so
      the create route never fails on it. */
  lemma PreparedWithScoring(data: Document, participants: map<string, Document>, jobs: map<string, Document>)
    requires "participantId" in data && "jobId" in data
    ensures Prepared(data, CompatibilityIn(participants, jobs, data["participantId"], data["jobId"])).Ok?
  {
    var c := CompatibilityIn(participants, jobs, data["participantId"], data["jobId"]);
    if c.Some? {
      var sc := Matching.ScoresOf(participants[data["participantId"].s], jobs[data["jobId"].s]);
      Matching.CompatibilityDocShape(sc.value);
    }
  }

  /** The create call of a route and its answer. */
  method CreateAnswered(repo: Matches.JobMatchRepository, data: Document, uuid: string, now: string)
    returns (reply: Reply)
    requires repo.Valid()
    modifies repo.container
    ensures repo.Valid()
    ensures CreatedAs(reply, Matches.NewJobMatch(data, uuid, now, old(repo.jobs.items), old(repo.participants.items)),
                      old(repo.container.items), repo.container.items)
  {
    var created := repo.CreateJobMatch(data, uuid, now);
    reply := Created(created);
  }

  /** `create_job_match` (the route): a missing `participantId` or `jobId`
      is a 400 and nothing is stored; otherwise the prepared request is
      created by the repository. */
  method CreateJobMatchRoute(repo: Matches.JobMatchRepository, data: Document, uuid: string, now: string)
    returns (reply: Reply)
    requires repo.Valid()
    modifies repo.container
    ensures repo.Valid()
    ensures FirstMissing(data, MatchRequired).Some? ==>
      reply == MissingField(FirstMissing(data, MatchRequired).value) &&
      repo.container.items == old(repo.container.items)
    ensures FirstMissing(data, MatchRequired).None? ==>
      var compatibility := if NeedsCompatibility(data) then
        CompatibilityIn(old(repo.participants.items), old(repo.jobs.items), data["participantId"], data["jobId"])
        else None;
      var prepared := Prepared(data, compatibility);
      prepared.Ok? &&
      CreatedAs(reply, Matches.NewJobMatch(prepared.value, uuid, now, old(repo.jobs.items), old(repo.participants.items)),
                old(repo.container.items), repo.container.items)
  {
    var missing := CheckRequired(data, MatchRequired);
    if missing.Some? {
      return MissingField(missing.value);
    }
    var d := data;
    if "status" !in d {
      d := d["status" := JStr(Matches.Considering)];
    }
    if "source" !in d {
      d := d["source" := JStr(Matches.CoachAssigned)];
    }
    var compatibility: Option<Document> := None;
    if "matchScore" !in d || "compatibilityElements" !in d {
      compatibility := Compatibility(repo, data["participantId"], data["jobId"]);
      PreparedWithScoring(data, repo.participants.items, repo.jobs.items);
      if Found(compatibility) {
        var c := compatibility.value;
        d := d["matchScore" := c["matchScore"]]["compatibilityElements" := c["compatibilityElements"]];
      }
    }
    assert Prepared(data, compatibility) == Ok(d);
    reply := CreateAnswered(repo, d, uuid, now);
  }

  /** `calculate_compatibility` called with the request's ids; an id that
      is not a string names no stored document. */
  method Compatibility(repo: Matches.JobMatchRepository, participantId: Json, jobId: Json)
    returns (r: Option<Document>)
    requires repo.Valid()
    ensures r == CompatibilityIn(repo.participants.items, repo.jobs.items, participantId, jobId)
  {
    if !participantId.JStr? || !jobId.JStr? {
      return None;
    }
    r := repo.CalculateCompatibility(participantId.s, jobId.s);
  }

  // ---------------------------------------------------------------------
  // GET, PUT /job-matches/<id> and PUT /job-matches/<id>/status

  const NotFound := "Job match not found"

  /** `get_job_match` (the route): 404 unless a non-empty match is stored. */
  method GetJobMatchRoute(repo: Matches.JobMatchRepository, id: string) returns (reply: Reply)
    requires repo.Valid()
    ensures id in repo.container.items && |repo.container.items[id]| > 0 ==>
      reply == Reply(200, JObj(repo.container.items[id]))
    ensures !(id in repo.container.items && |repo.container.items[id]| > 0) ==>
      reply == Reply(404, ErrorBody(NotFound))
  {
    var m := repo.GetJobMatch(id);
    if !Found(m) {
      return Reply(404, ErrorBody(NotFound));
    }
    reply := Reply(200, JObj(m.value));
  }

  /** `update_job_match` (the route): 404 for a missing match, 500 when the
      repository fails, otherwise the updated match. */
  method UpdateJobMatchRoute(repo: Matches.JobMatchRepository, id: string, data: Document, now: string)
    returns (reply: Reply)
    requires repo.Valid()
    modifies repo.container
    ensures repo.Valid()
    ensures !(id in old(repo.container.items) && |old(repo.container.items)[id]| > 0) ==>
      reply == Reply(404, ErrorBody(NotFound)) && repo.container.items == old(repo.container.items)
    ensures id in old(repo.container.items) && |old(repo.container.items)[id]| > 0 ==>
      var u := Updated(old(repo.container.items)[id], data, Matches.Protected, now);
      repo.container.items == old(repo.container.items)[id := u] &&
      reply == (if |u| > 0 then Reply(200, JObj(u)) else Reply(500, ErrorBody("Failed to update job match")))
  {
    var existing := repo.GetJobMatch(id);
    if !Found(existing) {
      return Reply(404, ErrorBody(NotFound));
    }
    var updated := repo.UpdateJobMatch(id, data, now);
    if !Found(updated) {
      return Reply(500, ErrorBody("Failed to update job match"));
    }
    reply := Reply(200, JObj(updated.value));
  }

  /** The optional notes: absent and None are no notes. A status or notes
      that is not a string is refused; see the model's notes. */
  function NotesOf(data: Document): Result<Option<string>>
  {
    var n := Get(data, "notes", JNull);
    if n.JNull? then Ok(None) else if n.JStr? then Ok(Some(n.s)) else Err("TypeError")
  }

  /** `update_job_match_status` (the route): 400 without `status`;
      otherwise the repository's status change, 500 when it gives
      nothing. */
  method UpdateJobMatchStatusRoute(repo: Matches.JobMatchRepository, id: string, data: Document, now: string)
    returns (reply: Reply)
    requires repo.Valid()
    modifies repo.container
    ensures repo.Valid()
    ensures "status" !in data ==>
      reply == Reply(400, ErrorBody("Missing required field: status")) &&
      repo.container.items == old(repo.container.items)
    ensures "status" in data && data["status"].JStr? && NotesOf(data).Ok? && id in old(repo.container.items) ==>
      var changed := Matches.StatusChanged(old(repo.container.items)[id], data["status"].s, NotesOf(data).value, now);
      (changed.Ok? ==> repo.container.items == old(repo.container.items)[id := changed.value] &&
                       reply == (if |changed.value| > 0 then Reply(200, JObj(changed.value))
                                 else Reply(500, ErrorBody("Failed to update job match status")))) &&
      (changed.Err? ==> repo.container.items == old(repo.container.items) &&
                        reply == Reply(500, ErrorBody("Failed to update job match status")))
    ensures "status" in data && id !in old(repo.container.items) ==>
      repo.container.items == old(repo.container.items) &&
      reply in {Reply(500, ErrorBody("Failed to update job match status")), Raised("TypeError")}
  {
    if "status" !in data {
      return Reply(400, ErrorBody("Missing required field: status"));
    }
    var notes := NotesOf(data);
    if !data["status"].JStr? || notes.Err? {
      return Raised("TypeError");
    }
    var updated := repo.UpdateJobMatchStatus(id, data["status"].s, notes.value, now);
    if !Found(updated) {
      return Reply(500, ErrorBody("Failed to update job match status"));
    }
    reply := Reply(200, JObj(updated.value));
  }

  // ---------------------------------------------------------------------
  // GET /job-matches/suggestions/<participant_id>

  /** `int(request.args.get('limit', 10))`, with 10 for a text that is not
      an integer. */
  function LimitOf(arg: Option<string>): (r: int)
    ensures arg.None? ==> r == DefaultLimit
    ensures arg.Some? && ParseInt(arg.value).Err? ==> r == DefaultLimit
    ensures arg.Some? && ParseInt(arg.value).Ok? ==> r == ParseInt(arg.value).value
  {
    if arg.Some? && ParseInt(arg.value).Ok? then ParseInt(arg.value).value else DefaultLimit
  }

  /** `?limit=2_0` asks for twenty suggestions, as Python's `int` reads it. */
  lemma LimitOfUnderscored()
    ensures LimitOf(Some("2_0")) == 20
  {
    ParseIntUnderscored();
  }

  /** The limit written as a number is read back. */
  lemma LimitOfNumber(n: int)
    ensures LimitOf(Some(IntToString(n))) == n
  {
    ParseIntToString(n);
  }

  /** One suggested job with its compatibility: the score and elements
      when there is a truthy compatibility, 0 and no elements otherwise. */
  function Scored(job: Document, compatibility: Option<Document>): Result<Document>
  {
    if Found(compatibility) then
      var c := compatibility.value;
      if "matchScore" in c && "compatibilityElements" in c then
        Ok(job["matchScore" := c["matchScore"]]["compatibilityElements" := c["compatibilityElements"]])
      else Err("KeyError")
    else Ok(job["matchScore" := JInt(0)]["compatibilityElements" := JList([])])
  }

  /** The compatibility of each suggested job with the participant: the job
      must have an id. */
  function ScoredWith(participants: map<string, Document>, jobs: map<string, Document>,
                      participantId: string): (Document, nat) -> Result<Document>
  {
    (job: Document, i: nat) =>
      if "id" !in job then Err("KeyError")
      else Scored(job, CompatibilityIn(participants, jobs, JStr(participantId), job["id"]))
  }

  /** The route's answer: every suggested job scored, then sorted by score,
      highest first. */
  function RankedSuggestions(participants: map<string, Document>, jobs: map<string, Document>,
                             participantId: string, suggested: seq<Document>): Result<seq<Document>>
  {
    var scored :- MapAll(suggested, ScoredWith(participants, jobs, participantId));
    Ok(SortBy(Search.ByScoreDesc, scored))
  }

  /** A job whose compatibility cannot be computed scores 0 with no
      elements; every other field of the job is kept. */
  lemma FailedCompatibilityScoresZero(job: Document)
    ensures Scored(job, None) == Ok(job["matchScore" := JInt(0)]["compatibilityElements" := JList([])])
    ensures Search.ScoreOf(Scored(job, None).value) == 0
    ensures forall k :: k in job && k != "matchScore" && k != "compatibilityElements" ==>
      Scored(job, None).value[k] == job[k]
  {
  }

  /** The suggestions come back as a permutation of the scored jobs, one
      per suggested job, ordered by score from highest to lowest. */
  lemma RankedSuggestionsOrdered(participants: map<string, Document>, jobs: map<string, Document>,
                                 participantId: string, suggested: seq<Document>)
    requires RankedSuggestions(participants, jobs, participantId, suggested).Ok?
    ensures var scored := MapAll(suggested, ScoredWith(participants, jobs, participantId)).value;
      var r := RankedSuggestions(participants, jobs, participantId, suggested).value;
      |r| == |suggested| && multiset(r) == multiset(scored) &&
      forall i, j :: 0 <= i < j < |r| ==> Search.ScoreOf(r[i]) >= Search.ScoreOf(r[j])
  {
    var scored := MapAll(suggested, ScoredWith(participants, jobs, participantId)).value;
    Search.RankingOrdered(scored, |scored|);
    Search.RankingReorders(scored, map[]);
    assert Head(SortBy(Search.ByScoreDesc, scored), |scored|) == SortBy(Search.ByScoreDesc, scored);
  }

  /** `get_job_suggestions` (the route): the limit read from the query
      string, the repository's suggestions for the active jobs its query
      returns (`activeJobs`, given the limit), each job scored in place and
      the list sorted in place. */
  method GetJobSuggestionsRoute(jobRepo: Jobs.JobRepository, matchRepo: Matches.JobMatchRepository,
                                participantId: string, limitArg: Option<string>,
                                activeJobs: int -> seq<Document>)
    returns (r: Result<seq<Document>>)
    requires jobRepo.Valid() && matchRepo.Valid()
    ensures var p := if participantId in jobRepo.participants.items
                     then Some(jobRepo.participants.items[participantId]) else None;
      r == RankedSuggestions(matchRepo.participants.items, matchRepo.jobs.items, participantId,
                             Jobs.SuggestionsFor(p, activeJobs(LimitOf(limitArg))))
  {
    var limit := LimitOf(limitArg);
    var suggested := jobRepo.GetJobSuggestionsForParticipant(participantId, activeJobs(limit));
    var f := ScoredWith(matchRepo.participants.items, matchRepo.jobs.items, participantId);
    var scored: seq<Document> := [];
    for i := 0 to |suggested|
      invariant MapAll(suggested[..i], f) == Ok(scored)
    {
      MapAllStep(suggested, f, i);
      var job := suggested[i];
      if "id" !in job {
        MapAllStops(suggested, f, i + 1);
        return Err("KeyError");
      }
      var compatibility := Compatibility(matchRepo, JStr(participantId), job["id"]);
      var next := Scored(job, compatibility);
      if next.Err? {
        MapAllStops(suggested, f, i + 1);
        return Err(next.error);
      }
      scored := scored + [next.value];
    }
    assert suggested[..|suggested|] == suggested;
    var sorted := Search.SortedByScore(scored);
    r := Ok(sorted);
  }

  // ---------------------------------------------------------------------
  // POST /job-matches/create-suggestion/<participant_id>/<job_id>

  /** The match a system suggestion creates. */
  function SuggestionData(participantId: string, jobId: string, c: Document): Document
    requires "matchScore" in c && "compatibilityElements" in c
  {
    map["participantId" := JStr(participantId), "jobId" := JStr(jobId),
        "status" := JStr(Suggested), "source" := JStr(SystemGenerated),
        "matchScore" := c["matchScore"], "compatibilityElements" := c["compatibilityElements"]]
  }

  /** The created suggestion is `suggested`, `system-generated`, for the
      two ids, and carries the compatibility's score and elements. */
  lemma SuggestionCreatedFields(participantId: string, jobId: string, c: Document, uuid: string, now: string,
                                jobs: map<string, Document>, participants: map<string, Document>)
    requires "matchScore" in c && "compatibilityElements" in c
    ensures var body := Matches.NewJobMatch(SuggestionData(participantId, jobId, c), uuid, now, jobs, participants);
      body["status"] == JStr(Suggested) && body["source"] == JStr(SystemGenerated) &&
      body["participantId"] == JStr(participantId) && body["jobId"] == JStr(jobId) &&
      body["matchScore"] == c["matchScore"] && body["compatibilityElements"] == c["compatibilityElements"]
  {
    var data := SuggestionData(participantId, jobId, c);
    SuggestionDataFields(participantId, jobId, c);
    Matches.NewJobMatchKeeps(data, uuid, now, jobs, participants);
  }

  lemma SuggestionDataFields(participantId: string, jobId: string, c: Document)
    requires "matchScore" in c && "compatibilityElements" in c
    ensures var data := SuggestionData(participantId, jobId, c);
      "status" in data && data["status"] == JStr(Suggested) &&
      "source" in data && data["source"] == JStr(SystemGenerated) &&
      "participantId" in data && data["participantId"] == JStr(participantId) &&
      "jobId" in data && data["jobId"] == JStr(jobId) &&
      "matchScore" in data && data["matchScore"] == c["matchScore"] &&
      "compatibilityElements" in data && data["compatibilityElements"] == c["compatibilityElements"]
  {
  }

  /** `create_job_suggestion`: 400 when no compatibility can be computed,
      otherwise the suggested match is created. */
  method CreateJobSuggestionRoute(repo: Matches.JobMatchRepository, participantId: string, jobId: string,
                                  uuid: string, now: string)
    returns (reply: Reply)
    requires repo.Valid()
    modifies repo.container
    ensures repo.Valid()
    ensures var c := CompatibilityIn(old(repo.participants.items), old(repo.jobs.items), JStr(participantId), JStr(jobId));
      (!Found(c) ==> reply == Reply(400, ErrorBody("Could not calculate compatibility")) &&
                     repo.container.items == old(repo.container.items)) &&
      (Found(c) && !("matchScore" in c.value && "compatibilityElements" in c.value) ==>
        reply == Raised("KeyError") && repo.container.items == old(repo.container.items)) &&
      (Found(c) && "matchScore" in c.value && "compatibilityElements" in c.value ==>
        CreatedAs(reply, Matches.NewJobMatch(SuggestionData(participantId, jobId, c.value), uuid, now,
                                             old(repo.jobs.items), old(repo.participants.items)),
                  old(repo.container.items), repo.container.items))
  {
    var compatibility := repo.CalculateCompatibility(participantId, jobId);
    if !Found(compatibility) {
      return Reply(400, ErrorBody("Could not calculate compatibility"));
    }
    var c := compatibility.value;
    if "matchScore" !in c || "compatibilityElements" !in c {
      return Raised("KeyError");
    }
    reply := CreateAnswered(repo, SuggestionData(participantId, jobId, c), uuid, now);
  }
}
