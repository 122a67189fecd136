/** The jobs repository over the document container: the two query builders
    (`get_all_jobs`, `search_jobs`), read, create, field-by-field update,
    delete, and the per-participant suggestions. */
module JobRepository {
  import opened Wrappers
  import opened Strings
  import opened Json
  import opened Queries
  import opened Cosmos
  import opened Sorting
  import Search = AISearchService
  import Matching = JobMatchingService

  // ---------------------------------------------------------------------
  // get_all_jobs

  /** The filters of `get_all_jobs`, in the order the query tests them. */
  datatype JobField = StatusField | EmploymentTypeField | IndustryField | LocationField
  {
    function Rank(): nat
    {
      match this
      case StatusField => 0
      case EmploymentTypeField => 1
      case IndustryField => 2
      case LocationField => 3
    }
  }

  datatype JobFilter = JobFilter(
    status: Option<string>, employmentType: Option<string>,
    industry: Option<string>, location: Option<string>)

  function ArgOf(jf: JobFilter, f: JobField): Option<string>
  {
    match f
    case StatusField => jf.status
    case EmploymentTypeField => jf.employmentType
    case IndustryField => jf.industry
    case LocationField => jf.location
  }

  /** `CONTAINS(LOWER(c.<field>), LOWER(<param>))`. */
  function TextMatch(field: string, p: string): string
  {
    "CONTAINS(LOWER(c." + field + "), LOWER(" + p + "))"
  }

  /** The clause each filter adds, naming its parameter `p`; the location
      is a case-insensitive substring test, the others are equalities. */
  function FilterClause(f: JobField, p: string): string
  {
    match f
    case StatusField => "c.status = " + p
    case EmploymentTypeField => "c.employmentType = " + p
    case IndustryField => "c.industry = " + p
    case LocationField => TextMatch("location", p)
  }

  /** The filters that apply (neither None, `""` nor `"all"`), in query
      order, with their values. */
  function AllJobsApplied(jf: JobFilter): seq<(JobField, string)>
  {
    Take(StatusField, jf.status, Applies(jf.status)) +
    Take(EmploymentTypeField, jf.employmentType, Applies(jf.employmentType)) +
    Take(IndustryField, jf.industry, Applies(jf.industry)) +
    Take(LocationField, jf.location, Applies(jf.location))
  }

  /** A filter takes part exactly when it applies, carrying its own argument,
      and the filters keep the order status, employmentType, industry,
      location. */
  lemma AllJobsFilters(jf: JobFilter)
    ensures forall i :: 0 <= i < |AllJobsApplied(jf)| ==>
      Applies(ArgOf(jf, AllJobsApplied(jf)[i].0)) &&
      AllJobsApplied(jf)[i].1 == ArgOf(jf, AllJobsApplied(jf)[i].0).value
    ensures forall f: JobField :: Applies(ArgOf(jf, f)) ==>
      exists i :: 0 <= i < |AllJobsApplied(jf)| && AllJobsApplied(jf)[i].0 == f
    ensures forall i, j :: 0 <= i < j < |AllJobsApplied(jf)| ==>
      AllJobsApplied(jf)[i].0.Rank() < AllJobsApplied(jf)[j].0.Rank()
  {
    AllJobsEntries(jf);
    AllJobsComplete(jf);
    AllJobsOrdered(jf);
  }

  lemma AllJobsEntries(jf: JobFilter)
    ensures forall i :: 0 <= i < |AllJobsApplied(jf)| ==>
      Applies(ArgOf(jf, AllJobsApplied(jf)[i].0)) &&
      AllJobsApplied(jf)[i].1 == ArgOf(jf, AllJobsApplied(jf)[i].0).value
  {
    var a := Take(StatusField, jf.status, Applies(jf.status));
    var b := Take(EmploymentTypeField, jf.employmentType, Applies(jf.employmentType));
    var c := Take(IndustryField, jf.industry, Applies(jf.industry));
    var d := Take(LocationField, jf.location, Applies(jf.location));
    assert AllJobsApplied(jf) == a + b + c + d;
  }

  lemma AllJobsComplete(jf: JobFilter)
    ensures forall f: JobField :: Applies(ArgOf(jf, f)) ==>
      exists i :: 0 <= i < |AllJobsApplied(jf)| && AllJobsApplied(jf)[i].0 == f
  {
    var a := Take(StatusField, jf.status, Applies(jf.status));
    var b := Take(EmploymentTypeField, jf.employmentType, Applies(jf.employmentType));
    var c := Take(IndustryField, jf.industry, Applies(jf.industry));
    var d := Take(LocationField, jf.location, Applies(jf.location));
    var all := AllJobsApplied(jf);
    assert all == a + b + c + d;
    forall f: JobField | Applies(ArgOf(jf, f))
      ensures exists i :: 0 <= i < |all| && all[i].0 == f
    {
      match f
      case StatusField => assert all[0].0 == f;
      case EmploymentTypeField => assert all[|a|].0 == f;
      case IndustryField => assert all[|a| + |b|].0 == f;
      case LocationField => assert all[|a| + |b| + |c|].0 == f;
    }
  }

  lemma AllJobsOrdered(jf: JobFilter)
    ensures forall i, j :: 0 <= i < j < |AllJobsApplied(jf)| ==>
      AllJobsApplied(jf)[i].0.Rank() < AllJobsApplied(jf)[j].0.Rank()
  {
    var a := Take(StatusField, jf.status, Applies(jf.status));
    var b := Take(EmploymentTypeField, jf.employmentType, Applies(jf.employmentType));
    var c := Take(IndustryField, jf.industry, Applies(jf.industry));
    var d := Take(LocationField, jf.location, Applies(jf.location));
    assert AllJobsApplied(jf) == a + b + c + d;
  }

  /** No WHERE part exactly when no filter applies; otherwise one
      parameter `@p1`, `@p2`, ... per clause. */
  lemma AllJobsQueryShape(jf: JobFilter)
    ensures WithWhere(NumberedClauses(AllJobsApplied(jf), FilterClause)) == SelectAll <==>
      !Applies(jf.status) && !Applies(jf.employmentType) && !Applies(jf.industry) && !Applies(jf.location)
    ensures |NumberedParams(AllJobsApplied(jf))| == |NumberedClauses(AllJobsApplied(jf), FilterClause)|
    ensures forall i :: 0 <= i < |AllJobsApplied(jf)| ==>
      NumberedParams(AllJobsApplied(jf))[i].name == Numbered(i + 1) &&
      NumberedClauses(AllJobsApplied(jf), FilterClause)[i] ==
        FilterClause(AllJobsApplied(jf)[i].0, NumberedParams(AllJobsApplied(jf))[i].name)
  {
    WithWhereBare(NumberedClauses(AllJobsApplied(jf), FilterClause));
  }

  // ---------------------------------------------------------------------
  // search_jobs

  /** The arguments of `search_jobs`; `text` is its `query`. */
  datatype SearchArgs = SearchArgs(
    text: Option<string>, skills: Option<seq<string>>,
    location: Option<string>, employmentType: Option<string>)

  /** The single-valued criteria, in the order the query tests them. */
  datatype SearchField = TextField | LocationSearch | EmploymentSearch

  const Indent16 := "                "
  const Indent12 := "            "

  /** The free-text clause: the parameter is searched in the title, the
      description, the short description and the company name, one per
      line, in the layout of the triple-quoted f-string. */
  function TextClause(p: string): string
  {
    "(\n" + TextLine("title", p, " OR \n") + TextLine("description", p, " OR \n") +
    TextLine("shortDescription", p, " OR\n") + TextLine("companyName", p, "\n") + Indent12 + ")"
  }

  /** One indented line of the free-text clause. */
  function TextLine(field: string, p: string, tail: string): string
  {
    Indent16 + TextMatch(field, p) + tail
  }

  function SearchClause(f: SearchField, p: string): string
  {
    match f
    case TextField => TextClause(p)
    case LocationSearch => TextMatch("location", p)
    case EmploymentSearch => "c.employmentType = " + p
  }

  /** The truthy single-valued criteria, in query order. */
  function SearchScalars(a: SearchArgs): seq<(SearchField, string)>
  {
    Take(TextField, a.text, Given(a.text)) +
    Take(LocationSearch, a.location, Given(a.location)) +
    Take(EmploymentSearch, a.employmentType, Given(a.employmentType))
  }

  /** `if skills and len(skills) > 0`: the skills that take part. */
  function SkillsOf(a: SearchArgs): seq<string>
  {
    if a.skills.Some? then a.skills.value else []
  }

  function SkillCondition(p: string): string
  {
    "ARRAY_CONTAINS(c.requiredSkills, " + p + ")"
  }

  /** The conditions of `n` skills numbered after the first `start`
      parameters. */
  function SkillConditions(start: nat, n: nat): (r: seq<string>)
    ensures |r| == n && forall i :: 0 <= i < n ==> r[i] == SkillCondition(Numbered(start + i + 1))
  {
    seq(n, i requires 0 <= i < n => SkillCondition(Numbered(start + i + 1)))
  }

  function SkillParams(start: nat, skills: seq<string>): (r: seq<Param>)
    ensures |r| == |skills|
    ensures forall i :: 0 <= i < |skills| ==> r[i] == Param(Numbered(start + i + 1), JStr(skills[i]))
  {
    seq(|skills|, i requires 0 <= i < |skills| => Param(Numbered(start + i + 1), JStr(skills[i])))
  }

  /** The one clause all skills share: any of them may match. */
  function SkillGroup(start: nat, n: nat): string
  {
    "(" + Join(" OR ", SkillConditions(start, n)) + ")"
  }

  function SearchClauses(a: SearchArgs): seq<string>
  {
    var scalars := SearchScalars(a);
    NumberedClauses(scalars, SearchClause) +
    (if |SkillsOf(a)| > 0 then [SkillGroup(|scalars|, |SkillsOf(a)|)] else [])
  }

  function SearchParams(a: SearchArgs): seq<Param>
  {
    NumberedParams(SearchScalars(a)) + SkillParams(|SearchScalars(a)|, SkillsOf(a))
  }

  const ActiveOnly := "c.status = 'active'"
  const StatusTest := "c.status"

  predicate MentionsStatus(clauses: seq<string>)
  {
    exists i :: 0 <= i < |clauses| && Contains(clauses[i], StatusTest)
  }

  /** The final text: only active jobs when there is no clause; otherwise
      the restriction is appended unless some clause already tests the
      status. */
  function SearchText(clauses: seq<string>): string
  {
    if |clauses| == 0 then SelectAll + " WHERE " + ActiveOnly
    else if !MentionsStatus(clauses) then WithWhere(clauses) + " AND " + ActiveOnly
    else WithWhere(clauses)
  }

  lemma NumberedAvoids(n: nat, x: char)
    requires x != '@' && x != 'p' && !IsDigit(x)
    ensures x !in Numbered(n)
  {
    AllDigitsAvoid(NatToString(n), x);
  }

  lemma TextMatchAvoids(field: string, n: nat)
    requires 'u' !in field
    ensures 'u' !in TextMatch(field, Numbered(n))
  {
    NumberedAvoids(n, 'u');
    assert 'u' !in "CONTAINS(LOWER(c." && 'u' !in "), LOWER(" && 'u' !in "))";
  }

  lemma TextLineAvoids(field: string, n: nat, tail: string)
    requires 'u' !in field && 'u' !in tail
    ensures 'u' !in TextLine(field, Numbered(n), tail)
  {
    TextMatchAvoids(field, n);
    assert forall k :: 0 <= k < |Indent16| ==> Indent16[k] == ' ';
  }

  lemma TextClauseAvoids(n: nat)
    ensures 'u' !in TextClause(Numbered(n))
  {
    TextLineAvoids("title", n, " OR \n");
    TextLineAvoids("description", n, " OR \n");
    TextLineAvoids("shortDescription", n, " OR\n");
    TextLineAvoids("companyName", n, "\n");
    assert forall k :: 0 <= k < |Indent12| ==> Indent12[k] == ' ';
  }

  lemma SearchClauseAvoids(f: SearchField, n: nat)
    ensures !Contains(SearchClause(f, Numbered(n)), StatusTest)
  {
    match f {
      case TextField => TextClauseAvoids(n);
      case LocationSearch => TextMatchAvoids("location", n);
      case EmploymentSearch => NumberedAvoids(n, 'u');
    }
    AbsentCharNotContained(SearchClause(f, Numbered(n)), StatusTest, 'u');
  }

  lemma SkillGroupAvoids(start: nat, n: nat)
    ensures !Contains(SkillGroup(start, n), StatusTest)
  {
    var conditions := SkillConditions(start, n);
    forall k | 0 <= k < n ensures 't' !in conditions[k]
    {
      NumberedAvoids(start + k + 1, 't');
    }
    JoinAvoids(" OR ", conditions, 't');
    AbsentCharNotContained(SkillGroup(start, n), StatusTest, 't');
  }

  /** No clause `search_jobs` builds contains `c.status`: the user's values
      travel as parameters, and each clause text lacks a `u` or a `t`. */
  lemma SearchClausesAvoidStatus(a: SearchArgs)
    ensures !MentionsStatus(SearchClauses(a))
  {
    var scalars := SearchScalars(a);
    var clauses := SearchClauses(a);
    forall i | 0 <= i < |clauses| ensures !Contains(clauses[i], StatusTest)
    {
      if i < |scalars| {
        SearchClauseAvoids(scalars[i].0, i + 1);
      } else {
        SkillGroupAvoids(|scalars|, |SkillsOf(a)|);
      }
    }
  }

  /** `search_jobs` always restricts to active jobs: with no criteria the
      query is that restriction alone, otherwise it follows every clause.
      There is no clause exactly when no criterion is truthy. */
  lemma SearchAlwaysActive(a: SearchArgs)
    ensures SearchClauses(a) == [] ==> SearchText(SearchClauses(a)) == SelectAll + " WHERE " + ActiveOnly
    ensures SearchClauses(a) != [] ==>
      SearchText(SearchClauses(a)) == WithWhere(SearchClauses(a)) + " AND " + ActiveOnly
    ensures SearchClauses(a) == [] <==>
      !Given(a.text) && !Given(a.location) && !Given(a.employmentType) && |SkillsOf(a)| == 0
  {
    SearchClausesAvoidStatus(a);
  }

  /** The parameters are `@p1`, `@p2`, ... in order: first the truthy text,
      location and employment type, then one per skill, each skill's
      condition naming its own parameter inside the single OR group. */
  lemma SearchParamsNumbered(a: SearchArgs)
    ensures var params := SearchParams(a);
      |params| == |SearchScalars(a)| + |SkillsOf(a)| &&
      (forall k :: 0 <= k < |params| ==> params[k].name == Numbered(k + 1)) &&
      (forall k :: 0 <= k < |SkillsOf(a)| ==>
        params[|SearchScalars(a)| + k].value == JStr(SkillsOf(a)[k]))
    ensures |SkillsOf(a)| > 0 ==>
      var params := SearchParams(a);
      var conditions := SkillConditions(|SearchScalars(a)|, |SkillsOf(a)|);
      SearchClauses(a)[|SearchClauses(a)| - 1] == "(" + Join(" OR ", conditions) + ")" &&
      forall k :: 0 <= k < |SkillsOf(a)| ==>
        conditions[k] == SkillCondition(params[|SearchScalars(a)| + k].name)
  {
  }

  /** The skill loop: one numbered condition and one parameter per skill. */
  method AddSkills(skills: seq<string>, params: seq<Param>, index: nat)
    returns (group: string, params': seq<Param>, index': nat)
    ensures group == SkillGroup(index, |skills|)
    ensures params' == params + SkillParams(index, skills)
    ensures index' == index + |skills|
  {
    var conditions: seq<string> := [];
    params', index' := params, index;
    for k := 0 to |skills|
      invariant index' == index + k
      invariant conditions == SkillConditions(index, k)
      invariant params' == params + SkillParams(index, skills[..k])
    {
      index' := index' + 1;
      conditions := conditions + [SkillCondition(Numbered(index'))];
      params' := params' + [Param(Numbered(index'), JStr(skills[k]))];
      assert SkillParams(index, skills[..k + 1]) ==
        SkillParams(index, skills[..k]) + [Param(Numbered(index + k + 1), JStr(skills[k]))];
    }
    assert skills[..|skills|] == skills;
    group := "(" + Join(" OR ", conditions) + ")";
  }

  // ---------------------------------------------------------------------
  // Documents

  /** `create_job`'s body: an id and a posting date only when absent, and
      one creation time for both time stamps. */
  function NewJob(data: Document, uuid: string, postedAt: string, now: string): (r: Document)
    ensures r.Keys == data.Keys + {"id", "postedDate", "createdAt", "updatedAt"}
    ensures r["id"] == Get(data, "id", JStr(uuid))
    ensures r["postedDate"] == Get(data, "postedDate", JStr(postedAt))
    ensures r["createdAt"] == JStr(now) && r["updatedAt"] == r["createdAt"]
    ensures forall k :: k in data && k !in {"id", "postedDate", "createdAt", "updatedAt"} ==> r[k] == data[k]
  {
    Stamped(WithDefault(data, "postedDate", JStr(postedAt)), uuid, now)
  }

  // ---------------------------------------------------------------------
  // Suggestions for a participant

  /** The job with its compatibility copied in, or the exception. */
  function Annotated(p: Document, job: Document): (r: Result<Document>)
  {
    match Matching.Compatibility(p, job)
    case Err(e) => Err(e)
    case Ok(c) =>
      if "matchScore" in c && "compatibilityElements" in c then
        Ok(job["matchScore" := c["matchScore"]]["compatibilityElements" := c["compatibilityElements"]])
      else Err("KeyError")
  }

  function AnnotateWith(p: Document): (Document, nat) -> Result<Document>
  {
    (job: Document, i: nat) => Annotated(p, job)
  }

  /** `get_job_suggestions_for_participant` as written: `self.job_matching`
      is never set, so the first job raises AttributeError, which the
      handler turns into `[]`; with no job the loop does not run and the
      empty list is returned. */
  function SuggestionsAsWritten(participant: Option<Document>, jobs: seq<Document>): seq<Document>
  {
    if participant.None? then []
    else if |jobs| > 0 then []
    else jobs
  }

  /** The evident intent: each job annotated with its compatibility, then
      sorted by match score, highest first; `[]` for a missing participant
      or when an exception escapes the loop. */
  function SuggestionsFor(participant: Option<Document>, jobs: seq<Document>): seq<Document>
  {
    if participant.None? then []
    else
      match MapAll(jobs, AnnotateWith(participant.value))
      case Err(_) => []
      case Ok(annotated) => SortBy(Search.ByScoreDesc, annotated)
  }

  /** A job whose compatibility can be computed is annotated with its match
      score, between 0 and 100. */
  lemma AnnotatedScore(p: Document, job: Document)
    requires Matching.Compatibility(p, job).Ok?
    ensures Annotated(p, job).Ok?
    ensures Annotated(p, job).value["matchScore"] == Matching.Compatibility(p, job).value["matchScore"]
    ensures 0 <= Search.ScoreOf(Annotated(p, job).value) <= 100
  {
    var sc := Matching.ScoresOf(p, job);
    assert sc.Ok?;
    Matching.CompatibilityDocShape(sc.value);
  }

  /** When every compatibility can be computed, every job is annotated, with
      a match score between 0 and 100. */
  lemma {:induction false} AnnotatedAll(p: Document, jobs: seq<Document>)
    requires forall i :: 0 <= i < |jobs| ==> Matching.Compatibility(p, jobs[i]).Ok?
    ensures MapAll(jobs, AnnotateWith(p)).Ok?
    ensures forall d :: d in MapAll(jobs, AnnotateWith(p)).value ==> 0 <= Search.ScoreOf(d) <= 100
  {
    forall i | 0 <= i < |jobs| ensures AnnotateWith(p)(jobs[i], i).Ok?
    {
      AnnotatedScore(p, jobs[i]);
    }
    var annotated := MapAll(jobs, AnnotateWith(p)).value;
    forall d | d in annotated ensures 0 <= Search.ScoreOf(d) <= 100
    {
      var i :| 0 <= i < |annotated| && annotated[i] == d;
      AnnotatedScore(p, jobs[i]);
      assert AnnotateWith(p)(jobs[i], i) == Ok(annotated[i]);
    }
  }

  /** When every job could be annotated, the intended suggestions are all
      of them, as a permutation ordered by match score, highest first. */
  lemma SuggestionsRanked(p: Document, jobs: seq<Document>)
    requires MapAll(jobs, AnnotateWith(p)).Ok?
    ensures var r := SuggestionsFor(Some(p), jobs);
      |r| == |jobs| && multiset(r) == multiset(MapAll(jobs, AnnotateWith(p)).value) &&
      (forall i, j :: 0 <= i < j < |r| ==> Search.ScoreOf(r[i]) >= Search.ScoreOf(r[j]))
  {
    var annotated := MapAll(jobs, AnnotateWith(p)).value;
    Search.RankingOrdered(annotated, |annotated|);
    Search.RankingReorders(annotated, map[]);
  }

  /** The finding: for an existing participant and at least one job whose
      compatibility can be computed, the code as written returns nothing
      where the intended version returns every job. */
  lemma SuggestionsAsWrittenEmpty(p: Document, jobs: seq<Document>)
    requires |jobs| > 0
    requires forall i :: 0 <= i < |jobs| ==> Matching.Compatibility(p, jobs[i]).Ok?
    ensures SuggestionsAsWritten(Some(p), jobs) == []
    ensures |SuggestionsFor(Some(p), jobs)| == |jobs| > 0
  {
    AnnotatedAll(p, jobs);
    SuggestionsRanked(p, jobs);
  }

  /** The criteria part of `search_jobs`: the numbered clauses and
      parameters of the text, location and employment type, then the skill
      group. */
  method SearchCriteria(a: SearchArgs) returns (clauses: seq<string>, params: seq<Param>)
    ensures clauses == SearchClauses(a)
    ensures params == SearchParams(a)
  {
    var index: nat;
    ghost var done: seq<(SearchField, string)> := [];
    clauses, params, index := AddNumbered(done, [], [], 0, TextField, a.text, Given(a.text), SearchClause);
    done := done + Take(TextField, a.text, Given(a.text));
    clauses, params, index := AddNumbered(done, clauses, params, index, LocationSearch,
                                          a.location, Given(a.location), SearchClause);
    done := done + Take(LocationSearch, a.location, Given(a.location));
    clauses, params, index := AddNumbered(done, clauses, params, index, EmploymentSearch,
                                          a.employmentType, Given(a.employmentType), SearchClause);
    done := done + Take(EmploymentSearch, a.employmentType, Given(a.employmentType));
    assert done == SearchScalars(a);
    if a.skills.Some? && |a.skills.value| > 0 {
      var group;
      group, params, index := AddSkills(a.skills.value, params, index);
      clauses := clauses + [group];
    }
  }

  lemma ActiveAppended(joined: string)
    ensures Join(" ", [SelectAll, "WHERE " + joined + " AND " + ActiveOnly]) ==
      SelectAll + " WHERE " + joined + " AND " + ActiveOnly
  {
    JoinPair(" ", SelectAll, "WHERE " + joined + " AND " + ActiveOnly);
    assert SelectAll + (" " + ("WHERE " + joined + " AND " + ActiveOnly))
        == SelectAll + " WHERE " + joined + " AND " + ActiveOnly;
  }

  /** The text part of `search_jobs`: the parts joined by spaces, with the
      active-only restriction added as a part or appended to the last one. */
  method ActiveQuery(clauses: seq<string>) returns (query: string)
    ensures query == SearchText(clauses)
  {
    var parts := [SelectAll];
    if |clauses| > 0 {
      parts := parts + ["WHERE " + Join(" AND ", clauses)];
    }
    var mentions := exists i | 0 <= i < |clauses| :: Contains(clauses[i], StatusTest);
    if |clauses| == 0 {
      parts := parts + ["WHERE " + ActiveOnly];
      JoinPair(" ", SelectAll, "WHERE " + ActiveOnly);
    } else if !mentions {
      var joined := Join(" AND ", clauses);
      parts := parts[..1] + [parts[1] + " AND " + ActiveOnly];
      ActiveAppended(joined);
    } else {
      PartsJoin(clauses);
    }
    query := Join(" ", parts);
  }

  // ---------------------------------------------------------------------
  // The repository

  class JobRepository {
    const container: Container
    const participants: Container

    ghost predicate Valid()
      reads this, container, participants
    {
      container.Valid() && participants.Valid()
    }

    constructor(container: Container, participants: Container)
      requires container.Valid() && participants.Valid()
      ensures this.container == container && this.participants == participants && Valid()
    {
      this.container := container;
      this.participants := participants;
    }

    /** `get_all_jobs`: the query text and parameters it sends. */
    method GetAllJobsQuery(jf: JobFilter) returns (query: string, params: seq<Param>)
      ensures query == WithWhere(NumberedClauses(AllJobsApplied(jf), FilterClause))
      ensures params == NumberedParams(AllJobsApplied(jf))
    {
      var clauses: seq<string>, index: nat;
      ghost var done: seq<(JobField, string)> := [];
      clauses, params, index := AddNumbered(done, [], [], 0, StatusField, jf.status, Applies(jf.status), FilterClause);
      done := done + Take(StatusField, jf.status, Applies(jf.status));
      clauses, params, index := AddNumbered(done, clauses, params, index, EmploymentTypeField,
                                            jf.employmentType, Applies(jf.employmentType), FilterClause);
      done := done + Take(EmploymentTypeField, jf.employmentType, Applies(jf.employmentType));
      clauses, params, index := AddNumbered(done, clauses, params, index, IndustryField,
                                            jf.industry, Applies(jf.industry), FilterClause);
      done := done + Take(IndustryField, jf.industry, Applies(jf.industry));
      clauses, params, index := AddNumbered(done, clauses, params, index, LocationField,
                                            jf.location, Applies(jf.location), FilterClause);
      done := done + Take(LocationField, jf.location, Applies(jf.location));
      assert done == AllJobsApplied(jf);
      var parts := [SelectAll];
      if |clauses| > 0 {
        parts := parts + ["WHERE " + Join(" AND ", clauses)];
        PartsJoin(clauses);
      }
      query := Join(" ", parts);
    }

    /** `search_jobs`: the query text and parameters it sends. */
    method SearchJobsQuery(a: SearchArgs) returns (query: string, params: seq<Param>)
      ensures query == SearchText(SearchClauses(a))
      ensures params == SearchParams(a)
    {
      var clauses;
      clauses, params := SearchCriteria(a);
      query := ActiveQuery(clauses);
    }

    /** `get_job`: the document whose id is `id`, or None. */
    method GetJob(id: string) returns (r: Option<Document>)
      requires Valid()
      ensures r == if id in container.items then Some(container.items[id]) else None
      ensures r.Some? ==> IdOf(r.value) == Some(id)
    {
      var read := container.ReadItem(id);
      r := if read.Ok? then Some(read.value) else None;
    }

    /** `create_job`: the completed body is created; a failure of the
      container escapes to the caller. */
    method CreateJob(data: Document, uuid: string, postedAt: string, now: string)
      returns (r: Result<Document>)
      requires Valid()
      modifies container
      ensures Valid()
      ensures var body := NewJob(data, uuid, postedAt, now);
        if IdOf(body).Some? && IdOf(body).value !in old(container.items) then
          r == Ok(body) && container.items == old(container.items)[IdOf(body).value := body]
        else
          r.Err? && container.items == old(container.items)
    {
      r := container.CreateItem(NewJob(data, uuid, postedAt, now));
    }

    /** `update_job`: every request value that is not None is written over
      the stored job (the `id` too) and `updatedAt` is refreshed; None for a
      missing job or a failed replace. */
    method UpdateJob(id: string, data: Document, now: string) returns (r: Option<Document>)
      requires Valid()
      modifies container
      ensures Valid()
      ensures id !in old(container.items) ==> r == None && container.items == old(container.items)
      ensures id in old(container.items) ==>
        var u := Updated(old(container.items)[id], data, {}, now);
        if IdOf(u) == Some(id) then
          r == Some(u) && container.items == old(container.items)[id := u]
        else
          r == None && container.items == old(container.items)
    {
      r := UpdateDocument(container, id, data, {}, now);
    }

    /** `delete_job`: True when the job existed and is gone, False
      otherwise. */
    method DeleteJob(id: string) returns (r: bool)
      requires Valid()
      modifies container
      ensures Valid()
      ensures r == (id in old(container.items))
      ensures container.items == old(container.items) - {id}
    {
      var deleted := container.DeleteItem(id);
      r := deleted.Ok?;
    }

    /** `get_job_suggestions_for_participant` in its intended form, over the
      active jobs the TOP/ORDER BY query returns. */
    method GetJobSuggestionsForParticipant(participantId: string, jobs: seq<Document>)
      returns (r: seq<Document>)
      requires Valid()
      ensures r == SuggestionsFor(
        if participantId in participants.items then Some(participants.items[participantId]) else None, jobs)
    {
      var read := participants.ReadItem(participantId);
      if read.Err? {
        return [];
      }
      var p := read.value;
      var annotated: seq<Document> := [];
      for i := 0 to |jobs|
        invariant MapAll(jobs[..i], AnnotateWith(p)) == Ok(annotated)
      {
        MapAllStep(jobs, AnnotateWith(p), i);
        var compatibility := Matching.CalculateCompatibility(p, jobs[i]);
        if compatibility.Err? {
          MapAllStops(jobs, AnnotateWith(p), i + 1);
          return [];
        }
        var c := compatibility.value;
        if "matchScore" !in c || "compatibilityElements" !in c {
          MapAllStops(jobs, AnnotateWith(p), i + 1);
          return [];
        }
        annotated := annotated + [jobs[i]["matchScore" := c["matchScore"]]["compatibilityElements" := c["compatibilityElements"]]];
      }
      assert jobs[..|jobs|] == jobs;
      r := Search.SortedByScore(annotated);
    }
  }
}
