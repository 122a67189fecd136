/** The job routes: the create route's required fields and defaults, the
    not-found and failure guards of the routes that read, update or delete
    one job, and the reading of the `skills` query parameter of the
    search route. */
module JobsRoutes {
  import opened Wrappers
  import opened Strings
  import opened Json
  import opened Http
  import opened Cosmos
  import opened Queries
  import Jobs = JobRepository

  const Required: seq<string> := ["title", "companyName", "description", "shortDescription",
                                  "location", "salary", "employmentType", "status"]
  const NotFound := "Job not found"
  const UpdateFailed := "Failed to update job"
  const DeleteFailed := "Failed to delete job"
  const Deleted := "Job deleted successfully"

  // ---------------------------------------------------------------------
  // POST /jobs

  /** The request after the route's defaults: the posting date (the clock
      reading `postedAt`), no required skills and no remote option, each
      only when absent. */
  function WithJobDefaults(data: Document, postedAt: string): Document
  {
    WithDefault(WithDefault(WithDefault(data, "postedDate", JStr(postedAt)),
                            "requiredSkills", JList([])), "remoteOption", JBool(false))
  }

  /** The stored job carries the request's posting date, skills and remote
      option or their defaults, and every other request field as sent. */
  lemma CreatedJobFields(data: Document, uuid: string, postedAt: string, repoPostedAt: string, now: string)
    ensures var body := Jobs.NewJob(WithJobDefaults(data, postedAt), uuid, repoPostedAt, now);
      body["postedDate"] == Get(data, "postedDate", JStr(postedAt)) &&
      body["requiredSkills"] == Get(data, "requiredSkills", JList([])) &&
      body["remoteOption"] == Get(data, "remoteOption", JBool(false)) &&
      forall k :: k in data && k != "id" && k != "createdAt" && k != "updatedAt" ==> body[k] == data[k]
  {
    CreatedJobDefaults(data, uuid, postedAt, repoPostedAt, now);
    var body := Jobs.NewJob(WithJobDefaults(data, postedAt), uuid, repoPostedAt, now);
    forall k | k in data && k != "id" && k != "createdAt" && k != "updatedAt"
      ensures k in body && body[k] == data[k]
    {
      CreatedJobKeepsKey(data, uuid, postedAt, repoPostedAt, now, k);
    }
  }

  lemma CreatedJobDefaults(data: Document, uuid: string, postedAt: string, repoPostedAt: string, now: string)
    ensures var body := Jobs.NewJob(WithJobDefaults(data, postedAt), uuid, repoPostedAt, now);
      body["postedDate"] == Get(data, "postedDate", JStr(postedAt)) &&
      body["requiredSkills"] == Get(data, "requiredSkills", JList([])) &&
      body["remoteOption"] == Get(data, "remoteOption", JBool(false))
  {
    var d1 := WithDefault(data, "postedDate", JStr(postedAt));
    var d2 := WithDefault(d1, "requiredSkills", JList([]));
    var d := WithDefault(d2, "remoteOption", JBool(false));
    assert "postedDate" in d && d["postedDate"] == d1["postedDate"];
    assert d["requiredSkills"] == d2["requiredSkills"];
  }

  lemma CreatedJobKeepsKey(data: Document, uuid: string, postedAt: string, repoPostedAt: string,
                           now: string, k: string)
    requires k in data && k != "id" && k != "createdAt" && k != "updatedAt"
    ensures var body := Jobs.NewJob(WithJobDefaults(data, postedAt), uuid, repoPostedAt, now);
      k in body && body[k] == data[k]
  {
    var d1 := WithDefault(data, "postedDate", JStr(postedAt));
    var d2 := WithDefault(d1, "requiredSkills", JList([]));
    var d := WithDefault(d2, "remoteOption", JBool(false));
    assert k in d && d[k] == data[k];
  }

  /** `create_job` (the route): 400 naming the first missing required
      field, nothing stored; otherwise the request with its defaults is
      created by the repository (whose own clock reading is
      `repoPostedAt`). */
  method CreateJobRoute(repo: Jobs.JobRepository, data: Document, uuid: string,
                        postedAt: string, repoPostedAt: string, now: string)
    returns (reply: Reply)
    requires repo.Valid()
    modifies repo.container
    ensures repo.Valid()
    ensures var missing := FirstMissing(data, Required);
      if missing.Some? then
        reply == MissingField(missing.value) && repo.container.items == old(repo.container.items)
      else
        CreatedAs(reply, Jobs.NewJob(WithJobDefaults(data, postedAt), uuid, repoPostedAt, now),
                  old(repo.container.items), repo.container.items)
  {
    var missing := CheckRequired(data, Required);
    if missing.Some? {
      return MissingField(missing.value);
    }
    reply := CreateWithDefaults(repo, data, uuid, postedAt, repoPostedAt, now);
  }

  /** The route past its required-field check. */
  method CreateWithDefaults(repo: Jobs.JobRepository, data: Document, uuid: string,
                            postedAt: string, repoPostedAt: string, now: string)
    returns (reply: Reply)
    requires repo.Valid()
    modifies repo.container
    ensures repo.Valid()
    ensures CreatedAs(reply, Jobs.NewJob(WithJobDefaults(data, postedAt), uuid, repoPostedAt, now),
                      old(repo.container.items), repo.container.items)
  {
    var d := ApplyJobDefaults(data, postedAt);
    var created := repo.CreateJob(d, uuid, repoPostedAt, now);
    reply := Created(created);
  }

  /** The route's three `if <field> not in data` assignments. */
  method ApplyJobDefaults(data: Document, postedAt: string) returns (d: Document)
    ensures d == WithJobDefaults(data, postedAt)
  {
    d := data;
    if "postedDate" !in d {
      d := d["postedDate" := JStr(postedAt)];
    }
    if "requiredSkills" !in d {
      d := d["requiredSkills" := JList([])];
    }
    if "remoteOption" !in d {
      d := d["remoteOption" := JBool(false)];
    }
  }

  // ---------------------------------------------------------------------
  // The routes of one job

  /** The stored job is found: present and not empty. */
  predicate Stored(items: map<string, Document>, id: string)
  {
    id in items && |items[id]| > 0
  }

  /** `get_job` (the route): 404 unless a non-empty job is stored under the
      id. */
  method GetJobRoute(repo: Jobs.JobRepository, id: string) returns (reply: Reply)
    requires repo.Valid()
    ensures Stored(repo.container.items, id) ==> reply == Reply(200, JObj(repo.container.items[id]))
    ensures !Stored(repo.container.items, id) ==> reply == Reply(404, ErrorBody(NotFound))
  {
    var job := repo.GetJob(id);
    if !Found(job) {
      return Reply(404, ErrorBody(NotFound));
    }
    reply := Reply(200, JObj(job.value));
  }

  /** `update_job` (the route): 404 and nothing written for a missing job;
      otherwise the repository's update, 500 when it gives nothing back. */
  method UpdateJobRoute(repo: Jobs.JobRepository, id: string, data: Document, now: string)
    returns (reply: Reply)
    requires repo.Valid()
    modifies repo.container
    ensures repo.Valid()
    ensures !Stored(old(repo.container.items), id) ==>
      reply == Reply(404, ErrorBody(NotFound)) && repo.container.items == old(repo.container.items)
    ensures Stored(old(repo.container.items), id) ==>
      var u := Updated(old(repo.container.items)[id], data, {}, now);
      if IdOf(u) == Some(id) then
        repo.container.items == old(repo.container.items)[id := u] && reply == Reply(200, JObj(u))
      else
        repo.container.items == old(repo.container.items) && reply == Reply(500, ErrorBody(UpdateFailed))
  {
    var existing := repo.GetJob(id);
    if !Found(existing) {
      return Reply(404, ErrorBody(NotFound));
    }
    var updated := repo.UpdateJob(id, data, now);
    if !Found(updated) {
      return Reply(500, ErrorBody(UpdateFailed));
    }
    reply := Reply(200, JObj(updated.value));
  }

  /** `delete_job` (the route): 404 and nothing removed for a missing job;
      otherwise it is removed and the answer is 200. */
  method DeleteJobRoute(repo: Jobs.JobRepository, id: string) returns (reply: Reply)
    requires repo.Valid()
    modifies repo.container
    ensures repo.Valid()
    ensures !Stored(old(repo.container.items), id) ==>
      reply == Reply(404, ErrorBody(NotFound)) && repo.container.items == old(repo.container.items)
    ensures Stored(old(repo.container.items), id) ==>
      reply == Reply(200, JObj(map["message" := JStr(Deleted)])) &&
      repo.container.items == old(repo.container.items) - {id}
  {
    var existing := repo.GetJob(id);
    if !Found(existing) {
      return Reply(404, ErrorBody(NotFound));
    }
    var success := repo.DeleteJob(id);
    if !success {
      reply := Reply(500, ErrorBody(DeleteFailed));
      return;
    }
    reply := Reply(200, JObj(map["message" := JStr(Deleted)]));
  }

  // ---------------------------------------------------------------------
  // GET /jobs/search

  /** `skills_str.split(',') if skills_str else None`. */
  function SkillsOf(arg: Option<string>): (r: Option<seq<string>>)
    ensures r.None? <==> arg.None? || arg.value == ""
    ensures r.Some? ==> |r.value| >= 1 && Join(",", r.value) == arg.value
    ensures r.Some? ==> forall i :: 0 <= i < |r.value| ==> HasNo(r.value[i], ',')
  {
    if arg.None? || arg.value == "" then None
    else
      JoinSplit(arg.value, ',');
      Some(Split(arg.value, ','))
  }

  /** The client sends the skills joined by commas: any non-empty list of
      skills none of which holds a comma comes back as sent, except the
      list of one empty skill, which reads as no skills. */
  lemma SkillsRoundTrip(skills: seq<string>)
    requires |skills| >= 1 && !(|skills| == 1 && skills[0] == "")
    requires forall i :: 0 <= i < |skills| ==> HasNo(skills[i], ',')
    ensures SkillsOf(Some(Join(",", skills))) == Some(skills)
  {
    SplitJoin(skills, ',');
  }

  /** The criteria `search_jobs` passes on: the query, the skills read from
      their parameter, the location and the employment type. */
  function SearchArgsOf(query: Option<string>, skills: Option<string>, location: Option<string>,
                        employmentType: Option<string>): Jobs.SearchArgs
  {
    Jobs.SearchArgs(query, SkillsOf(skills), location, employmentType)
  }

  /** `search_jobs` (the route): the repository's search query built from
      the parameters, answered by the container (`answer`). */
  method SearchJobsRoute(repo: Jobs.JobRepository, query: Option<string>, skills: Option<string>,
                         location: Option<string>, employmentType: Option<string>,
                         answer: (string, seq<Param>) -> seq<Document>)
    returns (reply: Reply)
    ensures var a := SearchArgsOf(query, skills, location, employmentType);
      reply == Reply(200, JList(Objs(answer(Jobs.SearchText(Jobs.SearchClauses(a)), Jobs.SearchParams(a)))))
  {
    var text, params := repo.SearchJobsQuery(SearchArgsOf(query, skills, location, employmentType));
    reply := Reply(200, JList(Objs(answer(text, params))));
  }
}
