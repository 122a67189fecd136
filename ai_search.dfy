/** The mock search service behind job matching: a fixed list of sample jobs
    (generated at random when the service starts, so given here as data),
    a text search that shuffles and truncates, and a simple match score
    followed by a stable sort, highest score first. Also the reading of a
    participant profile that both scoring services share. */
module AISearchService {
  import opened Wrappers
  import opened Strings
  import opened Json
  import opened Sorting

  // ---------------------------------------------------------------------
  // Reading a participant profile

  /** `if key in skills: participant_skills.extend(skills[key])`. */
  function Extended(acc: seq<Json>, skills: Json, key: string): (r: Result<seq<Json>>)
    ensures skills.JObj? && key !in skills.fields ==> r == Ok(acc)
    ensures skills.JObj? && key in skills.fields && Items(skills.fields[key]).Ok? ==>
      r == Ok(acc + Items(skills.fields[key]).value)
    ensures skills.JObj? && key in skills.fields && Items(skills.fields[key]).Err? ==> r.Err?
    ensures skills.JList? ==> r == if JStr(key) in skills.items then Err("TypeError") else Ok(acc)
    ensures skills.JNull? || skills.JBool? || skills.JInt? ==> r == Err("TypeError")
  {
    PyContainsText(if skills.JList? then skills.items else [], key);
    match PyIn(JStr(key), skills)
    case Err(e) => Err(e)
    case Ok(present) =>
      if !present then Ok(acc)
      else
        match Subscript(skills, key)
        case Err(e) => Err(e)
        case Ok(v) =>
          match Items(v)
          case Err(e) => Err(e)
          case Ok(more) => Ok(acc + more)
  }

  /** What iterating `d[key]` yields, nothing when the key is absent. */
  function ItemsOrNone(d: Document, key: string): Result<seq<Json>>
  {
    if key in d then Items(d[key]) else Ok([])
  }

  /** `participant_skills`: what iterating the technical skills yields
      followed by what iterating the soft ones yields, each only when its
      key is present. */
  function ParticipantSkills(p: Document): (r: Result<seq<Json>>)
    ensures "skills" !in p ==> r == Ok([])
    ensures "skills" in p && p["skills"].JObj? ==>
      var f := p["skills"].fields;
      ItemsOrNone(f, "technical").Ok? && ItemsOrNone(f, "soft").Ok? ==>
      r == Ok(ItemsOrNone(f, "technical").value + ItemsOrNone(f, "soft").value)
    ensures "skills" in p && p["skills"].JObj? ==>
      var f := p["skills"].fields;
      ItemsOrNone(f, "technical").Err? || ItemsOrNone(f, "soft").Err? ==> r.Err?
  {
    if "skills" !in p then Ok([])
    else
      match Extended([], p["skills"], "technical")
      case Err(e) => Err(e)
      case Ok(technical) =>
        var f := p["skills"];
        if f.JObj? then
          var t := ItemsOrNone(f.fields, "technical");
          assert t.Ok? ==> [] + t.value == t.value;
          assert t.Ok? ==> technical == t.value;
          var r := Extended(technical, f, "soft");
          assert "soft" !in f.fields ==> technical + [] == technical;
          assert ItemsOrNone(f.fields, "soft").Ok? ==> r == Ok(technical + ItemsOrNone(f.fields, "soft").value);
          r
        else Extended(technical, f, "soft")
  }

  /** `a` is `b` with some elements left out, the others in their order. */
  predicate IsSubsequence<T(==)>(a: seq<T>, b: seq<T>)
    decreases |b|
  {
    if |a| == 0 then true
    else if |b| == 0 then false
    else (a[0] == b[0] && IsSubsequence(a[1..], b[1..])) || IsSubsequence(a, b[1..])
  }

  /** `[skill for skill in skills if skill in required]`: the skills that
      equal a required one under `==`, in their order, each as often as
      the participant lists it. */
  function MatchingSkills(skills: seq<Json>, required: Json): (r: Result<seq<Json>>)
    ensures required.JList? ==> r.Ok? && IsSubsequence(r.value, skills)
    ensures required.JList? ==>
      forall x :: multiset(r.value)[x] == if PyContains(required.items, x) then multiset(skills)[x] else 0
    decreases |skills|
  {
    if |skills| == 0 then Ok([])
    else
      match PyIn(skills[0], required)
      case Err(e) => Err(e)
      case Ok(hit) =>
        match MatchingSkills(skills[1..], required)
        case Err(e) => Err(e)
        case Ok(rest) =>
          assert skills == [skills[0]] + skills[1..];
          assert hit ==> ([skills[0]] + rest)[1..] == rest;
          Ok(if hit then [skills[0]] + rest else rest)
  }

  /** How many of `xs` occur in `ys` under `==`, repeats counted. */
  function CountIn(xs: seq<Json>, ys: seq<Json>): nat
    decreases |xs|
  {
    if |xs| == 0 then 0 else (if PyContains(ys, xs[0]) then 1 else 0) + CountIn(xs[1..], ys)
  }

  /** The matching skills are as many as the participant's skills found in
      the job's list, repeats counted. */
  lemma {:induction false} MatchingSkillsCount(skills: seq<Json>, required: seq<Json>)
    ensures |MatchingSkills(skills, JList(required)).value| == CountIn(skills, required)
    decreases |skills|
  {
    if |skills| > 0 {
      MatchingSkillsCount(skills[1..], required);
    }
  }

  /** `in` compares with `==`, so a skill `True` matches a required `1`
      and a skill `0` a required `False`. */
  lemma MatchingSkillsBoolInt()
    ensures MatchingSkills([JBool(true)], JList([JInt(1)])) == Ok([JBool(true)])
    ensures MatchingSkills([JInt(0), JStr("0")], JList([JBool(false)])) == Ok([JInt(0)])
  {
    var one, no := [JInt(1)], [JBool(false)];
    assert PyEq(one[0], JBool(true));
    assert PyIn(JBool(true), JList(one)) == Ok(true);
    var s := [JBool(true)];
    assert s[1..] == [];
    assert MatchingSkills(s[1..], JList(one)) == Ok([]);
    assert [s[0]] + [] == s;
    assert PyEq(no[0], JInt(0));
    assert PyIn(JInt(0), JList(no)) == Ok(true);
    assert PyIn(JStr("0"), JList(no)) == Ok(false);
    var u := [JInt(0), JStr("0")];
    assert u[1..] == [JStr("0")] && u[1..][1..] == [];
    assert MatchingSkills(u[1..][1..], JList(no)) == Ok([]);
    assert MatchingSkills(u[1..], JList(no)) == Ok([]);
    assert [u[0]] + [] == [JInt(0)];
  }

  /** The `for location in preferred: if location.lower() in
      place.lower(): ... break` scan: `place` is the job's location, or
      the exception reading it raises, and is consulted only once there is
      a preferred location to compare. */
  function LocationScan(preferred: seq<Json>, place: Result<Json>): (r: Result<bool>)
    ensures |preferred| == 0 ==> r == Ok(false)
    ensures (forall i :: 0 <= i < |preferred| ==> preferred[i].JStr?) && place.Ok? && place.value.JStr? ==>
      r == Ok(exists i :: 0 <= i < |preferred| && ContainsIgnoringCase(place.value.s, preferred[i].s))
    decreases |preferred|
  {
    if |preferred| == 0 then Ok(false)
    else
      match PyLower(preferred[0])
      case Err(e) => Err(e)
      case Ok(wanted) =>
        match place
        case Err(e) => Err(e)
        case Ok(v) =>
          match PyLower(v)
          case Err(e) => Err(e)
          case Ok(where) =>
            if Contains(where, wanted) then Ok(true)
            else
              var r := LocationScan(preferred[1..], place);
              assert forall i :: 1 <= i < |preferred| ==> preferred[1..][i - 1] == preferred[i];
              r
  }

  /** The scan written as the loop it is, stopping at the first match. */
  method ScanLocations(preferred: seq<Json>, place: Result<Json>) returns (r: Result<bool>)
    ensures r == LocationScan(preferred, place)
  {
    var i := 0;
    while i < |preferred|
      invariant 0 <= i <= |preferred|
      invariant LocationScan(preferred, place) == LocationScan(preferred[i..], place)
    {
      var wanted := PyLower(preferred[i]);
      if wanted.Err? {
        return Err(wanted.error);
      }
      if place.Err? {
        return Err(place.error);
      }
      var where := PyLower(place.value);
      if where.Err? {
        return Err(where.error);
      }
      if Contains(where.value, wanted.value) {
        return Ok(true);
      }
      assert preferred[i..][1..] == preferred[i + 1..];
      i := i + 1;
    }
    return Ok(false);
  }

  // ---------------------------------------------------------------------
  // Sample jobs

  predicate IsText(j: Document, k: string)
  {
    k in j && j[k].JStr?
  }

  /** The fields `_generate_sample_jobs` gives every job, with the text and
      list values the search reads. */
  predicate SampleShaped(j: Document)
  {
    IsText(j, "id") && IsText(j, "title") && IsText(j, "employer") && IsText(j, "companyName") &&
    IsText(j, "location") && IsText(j, "industry") && IsText(j, "employmentType") &&
    "salary" in j && IsText(j, "shortDescription") && IsText(j, "postedDate") &&
    "applicationDeadline" in j && "availableAccommodations" in j &&
    "requiredSkills" in j && j["requiredSkills"].JList? &&
    forall i :: 0 <= i < |j["requiredSkills"].items| ==> j["requiredSkills"].items[i].JStr?
  }

  predicate TextMentions(j: Document, k: string, query: string)
  {
    IsText(j, k) && ContainsIgnoringCase(j[k].s, query)
  }

  /** The lowered query occurs in the lowered title, company name, location
      or one of the required skills. */
  predicate Mentions(j: Document, query: string)
  {
    TextMentions(j, "title", query) || TextMentions(j, "companyName", query) ||
    TextMentions(j, "location", query) ||
    ("requiredSkills" in j && j["requiredSkills"].JList? &&
     exists i :: 0 <= i < |j["requiredSkills"].items| &&
       j["requiredSkills"].items[i].JStr? &&
       ContainsIgnoringCase(j["requiredSkills"].items[i].s, query))
  }

  /** The jobs that mention the query, in sample order. */
  function Filtered(jobs: seq<Document>, query: string): (r: seq<Document>)
    ensures forall x :: x in r ==> x in jobs && Mentions(x, query)
    ensures forall i :: 0 <= i < |jobs| && Mentions(jobs[i], query) ==> jobs[i] in r
    decreases |jobs|
  {
    if |jobs| == 0 then []
    else
      var init := jobs[..|jobs| - 1];
      var last := jobs[|jobs| - 1];
      assert forall i :: 0 <= i < |init| ==> init[i] == jobs[i];
      Filtered(init, query) + (if Mentions(last, query) then [last] else [])
  }

  /** The jobs `search_jobs` keeps before shuffling: all of them for an
      empty or `*` query. */
  function Selected(jobs: seq<Document>, query: string): seq<Document>
  {
    if query == "" || query == "*" then jobs else Filtered(jobs, query)
  }

  // ---------------------------------------------------------------------
  // Match scores

  /** `len(matching) / max(len(required), 1) * 50` when the job lists skills,
      else nothing; truncated with the rest of the score. */
  function SkillPart(skills: seq<Json>, required: Json): (r: Result<int>)
    ensures required.JList? && |required.items| == 0 ==> r == Ok(0)
    ensures required.JList? && |required.items| > 0 ==>
      r == Ok(50 * CountIn(skills, required.items) / |required.items|)
  {
    match MatchingSkills(skills, required)
    case Err(e) => Err(e)
    case Ok(matching) =>
      if !Truthy(required) then Ok(0)
      else
        match PyLen(required)
        case Err(e) => Err(e)
        case Ok(n) =>
          if required.JList? then
            MatchingSkillsCount(skills, required.items);
            Ok(50 * |matching| / (if n > 1 then n else 1))
          else Ok(50 * |matching| / (if n > 1 then n else 1))
  }

  /** `int(skill_match * 50 + location_match * 25 + industry_match * 25)`
      for one job, with the exceptions the participant's data can raise. */
  function JobScore(skills: seq<Json>, p: Document, job: Document): Result<int>
  {
    match SkillPart(skills, Get(job, "requiredSkills", JList([])))
    case Err(e) => Err(e)
    case Ok(s) =>
      match Items(Get(p, "preferredLocations", JList([])))
      case Err(e) => Err(e)
      case Ok(preferred) =>
        match LocationScan(preferred, Subscript(JObj(job), "location"))
        case Err(e) => Err(e)
        case Ok(near) =>
          match Subscript(JObj(job), "industry")
          case Err(e) => Err(e)
          case Ok(industry) =>
            match PyIn(industry, Get(p, "preferredIndustries", JList([])))
            case Err(e) => Err(e)
            case Ok(liked) => Ok(s + 25 * Bit(near) + 25 * Bit(liked))
  }

  /** The job copied with its `matchScore`. */
  function ScoredCopy(skills: seq<Json>, p: Document): (Document, nat) -> Result<Document>
  {
    (job: Document, k: nat) =>
      match JobScore(skills, p, job)
      case Err(e) => Err(e)
      case Ok(s) => Ok(job["matchScore" := JInt(s)])
  }

  /** Each job copied with its `matchScore`, in sample order. */
  function Scored(skills: seq<Json>, p: Document, jobs: seq<Document>): Result<seq<Document>>
  {
    MapAll(jobs, ScoredCopy(skills, p))
  }

  function ScoreOf(d: Document): int
  {
    if "matchScore" in d && d["matchScore"].JInt? then d["matchScore"].i else 0
  }

  /** The comparator `sort(key=matchScore, reverse=True)` applies. */
  function ByScoreDesc(a: Document, b: Document): int
  {
    ScoreOf(b) - ScoreOf(a)
  }

  lemma ByScoreDescIsComparator()
    ensures IsComparator(ByScoreDesc)
  {
    forall a, b ensures Sign(ByScoreDesc(a, b)) == -Sign(ByScoreDesc(b, a)) {
    }
  }

  /** `find_job_matches` as a value: the scored copies, sorted by score
      (highest first, ties in sample order), then `[:limit]`. */
  function Ranked(p: Document, jobs: seq<Document>, limit: int): Result<seq<Document>>
  {
    match ParticipantSkills(p)
    case Err(e) => Err(e)
    case Ok(skills) =>
      match Scored(skills, p, jobs)
      case Err(e) => Err(e)
      case Ok(matches) => Ok(Head(SortBy(ByScoreDesc, matches), limit))
  }

  /** The ranking is ordered by score, highest first, and is a prefix of
      the sorted copies no longer than the limit. */
  lemma RankingOrdered(matches: seq<Document>, limit: int)
    ensures var r := Head(SortBy(ByScoreDesc, matches), limit);
      (forall i, j :: 0 <= i < j < |r| ==> ScoreOf(r[i]) >= ScoreOf(r[j])) &&
      r == SortBy(ByScoreDesc, matches)[..|r|] &&
      (limit >= 0 ==> |r| <= limit)
  {
    var sorted := SortBy(ByScoreDesc, matches);
    ByScoreDescIsComparator();
    SortBySorted(ByScoreDesc, matches);
    var r := Head(sorted, limit);
    forall i, j | 0 <= i < j < |r| ensures ScoreOf(r[i]) >= ScoreOf(r[j]) {
      assert r[i] == sorted[i] && r[j] == sorted[j];
      assert ByScoreDesc(sorted[i], sorted[j]) <= 0;
    }
  }

  /** Sorting only reorders the scored copies and keeps equal scores in
      sample order. */
  lemma RankingReorders(matches: seq<Document>, y: Document)
    ensures multiset(SortBy(ByScoreDesc, matches)) == multiset(matches)
    ensures Ties(ByScoreDesc, SortBy(ByScoreDesc, matches), y) == Ties(ByScoreDesc, matches, y)
  {
    ByScoreDescIsComparator();
    SortByPermutes(ByScoreDesc, matches);
    SortByStable(ByScoreDesc, matches, y);
  }

  /** When every skill is required, all of them match, repeats included. */
  lemma {:induction false} MatchingAllRequired(skills: seq<Json>, required: Json)
    requires required.JList? && forall i :: 0 <= i < |skills| ==> PyContains(required.items, skills[i])
    ensures MatchingSkills(skills, required) == Ok(skills)
    decreases |skills|
  {
    if |skills| > 0 {
      MatchingAllRequired(skills[1..], required);
      assert [skills[0]] + skills[1..] == skills;
    }
  }

  /** k copies of a skill are k matches of it. */
  lemma {:induction false} CountInCopies(x: Json, k: nat)
    ensures CountIn(seq(k, _ => x), [x]) == k
    decreases k
  {
    if k > 0 {
      assert seq(k, _ => x)[1..] == seq(k - 1, _ => x);
      PyContainsMember([x], x);
      CountInCopies(x, k - 1);
    }
  }

  /** The search score has no clamp: a participant without preferences
      listing k times the one skill a job requires scores 50·k, so three
      copies already score 150. */
  lemma JobScoreCanExceed100(skill: Json, k: nat, job: Document)
    requires "requiredSkills" in job && job["requiredSkills"] == JList([skill])
    requires "location" in job && job["location"].JStr? && "industry" in job
    ensures JobScore(seq(k, _ => skill), map[], job) == Ok(50 * k)
  {
    CountInCopies(skill, k);
  }

  /** One pass of the scoring loop body. */
  method ScoreJob(skills: seq<Json>, p: Document, job: Document) returns (r: Result<int>)
    ensures r == JobScore(skills, p, job)
  {
    var s := SkillPart(skills, Get(job, "requiredSkills", JList([])));
    if s.Err? {
      return Err(s.error);
    }
    var preferred := Items(Get(p, "preferredLocations", JList([])));
    if preferred.Err? {
      return Err(preferred.error);
    }
    var near := ScanLocations(preferred.value, Subscript(JObj(job), "location"));
    if near.Err? {
      return Err(near.error);
    }
    var industry := Subscript(JObj(job), "industry");
    if industry.Err? {
      return Err(industry.error);
    }
    var liked := PyIn(industry.value, Get(p, "preferredIndustries", JList([])));
    if liked.Err? {
      return Err(liked.error);
    }
    r := Ok(s.value + 25 * Bit(near.value) + 25 * Bit(liked.value));
  }

  /** The in-place sort of the scored copies. */
  method SortedByScore(matches: seq<Document>) returns (r: seq<Document>)
    ensures r == SortBy(ByScoreDesc, matches)
  {
    var a := new Document[|matches|](i requires 0 <= i < |matches| => matches[i]);
    assert a[..] == matches;
    InsertionSort(a, ByScoreDesc);
    r := a[..];
  }

  class AISearchService {
    var sampleJobs: seq<Document>

    ghost predicate Valid()
      reads this
    {
      forall i :: 0 <= i < |sampleJobs| ==> SampleShaped(sampleJobs[i])
    }

    /** The service over the jobs `_generate_sample_jobs` produced. */
    constructor(jobs: seq<Document>)
      requires forall i :: 0 <= i < |jobs| ==> SampleShaped(jobs[i])
      ensures Valid() && sampleJobs == jobs
    {
      sampleJobs := jobs;
    }

    /** `search_jobs`: the selected jobs in the order `shuffle` leaves them
      (any permutation), then `[:limit]`. The OData filter argument is
      ignored by the service and is not a parameter here. */
    method SearchJobs(query: string, limit: int, shuffle: seq<Document> -> seq<Document>)
      returns (r: seq<Document>)
      requires Valid()
      requires forall s :: multiset(shuffle(s)) == multiset(s)
      ensures r == Head(shuffle(Selected(sampleJobs, query)), limit)
      ensures forall x :: x in r ==> x in sampleJobs
      ensures query != "" && query != "*" ==> forall x :: x in r ==> Mentions(x, query)
      ensures limit >= 0 ==> |r| <= limit
    {
      var results: seq<Document> := [];
      if query == "" || query == "*" {
        results := sampleJobs;
      } else {
        for i := 0 to |sampleJobs|
          invariant results == Filtered(sampleJobs[..i], query)
        {
          assert sampleJobs[..i + 1] == sampleJobs[..i] + [sampleJobs[i]];
          if Mentions(sampleJobs[i], query) {
            results := results + [sampleJobs[i]];
          }
        }
        assert sampleJobs[..|sampleJobs|] == sampleJobs;
      }
      ghost var kept := results;
      results := shuffle(results);
      assert multiset(results) == multiset(kept);
      r := Head(results, limit);
      forall x | x in r ensures x in kept {
        assert x in multiset(results);
      }
    }

    /** `find_job_matches`: scores copies of the sample jobs (the sample
      list itself is not changed), sorts the copies in place, highest
      score first, and returns `[:limit]`. */
    method FindJobMatches(p: Document, limit: int) returns (r: Result<seq<Document>>)
      ensures r == Ranked(p, sampleJobs, limit)
    {
      var skills := ParticipantSkills(p);
      if skills.Err? {
        return Err(skills.error);
      }
      var matches: seq<Document> := [];
      for i := 0 to |sampleJobs|
        invariant Scored(skills.value, p, sampleJobs[..i]) == Ok(matches)
      {
        var job := sampleJobs[i];
        MapAllStep(sampleJobs, ScoredCopy(skills.value, p), i);
        var score := ScoreJob(skills.value, p, job);
        if score.Err? {
          MapAllStops(sampleJobs, ScoredCopy(skills.value, p), i + 1);
          return Err(score.error);
        }
        matches := matches + [job["matchScore" := JInt(score.value)]];
      }
      assert sampleJobs[..|sampleJobs|] == sampleJobs;
      var sorted := SortedByScore(matches);
      r := Ok(Head(sorted, limit));
    }
  }
}
