/** The rule-based compatibility score between a participant and a job:
    four category scores (skills, location, industry, accommodations), each
    between 0 and 100, and their weighted total; and the service that turns
    the search service's ranked jobs into suggested job matches. */
module JobMatchingService {
  import opened Wrappers
  import opened Strings
  import opened Json
  import Search = AISearchService

  // ---------------------------------------------------------------------
  // Category scores

  /** A count of matched items out of a total; a total of 0 stands for a
      falsy list, where the score is 0 whatever matched. */
  datatype Counted = Counted(matched: nat, total: nat)

  /** `min(100, int((matched / total) * 100))` when the list is truthy,
      else 0. */
  function Ratio(c: Counted): (r: int)
    ensures 0 <= r <= 100
    ensures c.total == 0 ==> r == 0
  {
    if c.total == 0 then 0
    else
      var q := 100 * c.matched / c.total;
      if q > 100 then 100 else q
  }

  /** The ratio is the truncated percentage while at most everything
      matched, and 100 once the matches reach the total. */
  lemma RatioMeaning(c: Counted)
    requires c.total > 0
    ensures c.matched <= c.total ==> Ratio(c) == 100 * c.matched / c.total
    ensures c.matched >= c.total ==> Ratio(c) == 100
  {
    if c.matched <= c.total {
      DivAtMost(100 * c.matched, c.total, 100);
    }
    if c.matched >= c.total {
      DivAtLeast(100 * c.matched, c.total, 100);
    }
  }

  lemma DivAtMost(a: nat, t: nat, b: nat)
    requires t > 0 && a <= b * t
    ensures a / t <= b
  {
    assert (a / t) * t <= a;
  }

  lemma DivAtLeast(a: nat, t: nat, b: nat)
    requires t > 0 && a >= b * t
    ensures a / t >= b
  {
    var q := a / t;
    assert a < (q + 1) * t;
    LessOfProductLess(b, q + 1, t);
  }

  lemma LessOfProductLess(x: int, y: int, t: int)
    requires t > 0 && x * t < y * t
    ensures x < y
  {
    assert (y - x) * t == y * t - x * t;
  }

  /** `len(total)` read only when `total` is truthy. */
  function CountOf(matched: seq<Json>, total: Json): (r: Result<Counted>)
    ensures !Truthy(total) ==> r == Ok(Counted(|matched|, 0))
    ensures Items(total).Ok? ==> r == Ok(Counted(|matched|, |Items(total).value|))
    ensures r.Ok? ==> (r.value.total > 0 <==> Truthy(total)) && r.value.matched == |matched|
  {
    if !Truthy(total) then Ok(Counted(|matched|, 0))
    else
      match PyLen(total)
      case Err(e) => Err(e)
      case Ok(n) => Ok(Counted(|matched|, n))
  }

  /** `[acc for acc in needed if any(avail.lower() in acc.lower() for avail
      in available)]`; `available` is iterated afresh for every needed item
      (its error only surfaces when something is needed). */
  function CoveredNeeds(needed: seq<Json>, available: Result<seq<Json>>): (r: Result<seq<Json>>)
    ensures |needed| == 0 ==> r == Ok([])
    ensures AllText(needed) && available.Ok? && AllText(available.value) ==>
      r.Ok? && |r.value| == CountCovered(needed, available.value)
    decreases |needed|
  {
    if |needed| == 0 then Ok([])
    else
      match available
      case Err(e) => Err(e)
      case Ok(avail) =>
        match Search.LocationScan(avail, Ok(needed[0]))
        case Err(e) => Err(e)
        case Ok(hit) =>
          match CoveredNeeds(needed[1..], available)
          case Err(e) => Err(e)
          case Ok(rest) => Ok(if hit then [needed[0]] + rest else rest)
  }

  /** Some available accommodation occurs, ignoring case, in the needed one. */
  predicate Covered(need: string, avail: seq<Json>)
    requires AllText(avail)
  {
    exists j :: 0 <= j < |avail| && ContainsIgnoringCase(need, avail[j].s)
  }

  /** How many needed accommodations are covered. */
  function CountCovered(needed: seq<Json>, avail: seq<Json>): nat
    requires AllText(needed) && AllText(avail)
    decreases |needed|
  {
    if |needed| == 0 then 0
    else (if Covered(needed[0].s, avail) then 1 else 0) + CountCovered(needed[1..], avail)
  }

  /** The four raw results the scores are made of. */
  datatype Scores = Scores(skills: Counted, location: bool, industry: bool, accommodations: Counted)

  /** The skill count: the participant's skills (technical, then soft)
      that the job's `requiredSkills` list, out of the required ones. */
  function SkillScore(p: Document, job: Document): (r: Result<Counted>)
  {
    match Search.ParticipantSkills(p)
    case Err(e) => Err(e)
    case Ok(skills) =>
      var required := Get(job, "requiredSkills", JList([]));
      match Search.MatchingSkills(skills, required)
      case Err(e) => Err(e)
      case Ok(matching) => CountOf(matching, required)
  }

  /** The location loop: some preferred location occurs in the job's. */
  function Nearby(p: Document, job: Document): (r: Result<bool>)
  {
    match Items(Get(p, "preferredLocations", JList([])))
    case Err(e) => Err(e)
    case Ok(preferred) => Search.LocationScan(preferred, Ok(Get(job, "location", JStr(""))))
  }

  /** `job_industry in preferred_industries`. */
  function Liked(p: Document, job: Document): (r: Result<bool>)
  {
    PyIn(Get(job, "industry", JStr("")), Get(p, "preferredIndustries", JList([])))
  }

  /** The accommodations count: the needed items covered by some available
      one, out of the needed ones. */
  function AccommodationScore(p: Document, job: Document): (r: Result<Counted>)
  {
    var needed := Get(p, "accommodationsNeeded", JList([]));
    match Items(needed)
    case Err(e) => Err(e)
    case Ok(needs) =>
      match CoveredNeeds(needs, Items(Get(job, "availableAccommodations", JList([]))))
      case Err(e) => Err(e)
      case Ok(covered) => CountOf(covered, needed)
  }

  /** `calculate_compatibility` up to the elements, in the order it reads the
      data, with the exceptions malformed data raises. */
  function ScoresOf(p: Document, job: Document): (r: Result<Scores>)
  {
    match SkillScore(p, job)
    case Err(e) => Err(e)
    case Ok(skillCount) =>
      match Nearby(p, job)
      case Err(e) => Err(e)
      case Ok(near) =>
        match Liked(p, job)
        case Err(e) => Err(e)
        case Ok(liked) =>
          match AccommodationScore(p, job)
          case Err(e) => Err(e)
          case Ok(accCount) => Ok(Scores(skillCount, near, liked, accCount))
  }

  /** Absent, or a value whose iteration yields strings (a list of
      strings, a string or a dict). */
  predicate TextListOrAbsent(d: Document, key: string)
  {
    key !in d || IteratesText(d[key])
  }

  /** The participant data the scoring expects: skill groups, preferred
      locations and needed accommodations iterating to strings, industries
      as a list. */
  predicate WellFormedParticipant(p: Document)
  {
    ("skills" in p ==>
       p["skills"].JObj? &&
       TextListOrAbsent(p["skills"].fields, "technical") && TextListOrAbsent(p["skills"].fields, "soft")) &&
    TextListOrAbsent(p, "preferredLocations") &&
    ("preferredIndustries" in p ==> p["preferredIndustries"].JList?) &&
    TextListOrAbsent(p, "accommodationsNeeded")
  }

  /** The job data the scoring expects. */
  predicate WellFormedJob(job: Document)
  {
    ("requiredSkills" in job ==> job["requiredSkills"].JList?) &&
    ("location" in job ==> job["location"].JStr?) &&
    TextListOrAbsent(job, "availableAccommodations")
  }

  /** What iterating the field yields, nothing when it is absent. */
  function TextItems(d: Document, key: string): (r: seq<Json>)
    requires TextListOrAbsent(d, key)
    ensures AllText(r)
    ensures Items(Get(d, key, JList([]))) == Ok(r)
  {
    if key in d then Items(d[key]).value else []
  }

  function SkillsOf(p: Document): seq<Json>
    requires WellFormedParticipant(p)
  {
    if "skills" in p
    then TextItems(p["skills"].fields, "technical") + TextItems(p["skills"].fields, "soft")
    else []
  }

  /** On well-formed data: the participant skills the job requires
      (repeats counted) out of the required ones. */
  lemma SkillScoreMeaning(p: Document, job: Document)
    requires WellFormedParticipant(p) && WellFormedJob(job)
    ensures var required := if "requiredSkills" in job then job["requiredSkills"].items else [];
      SkillScore(p, job) == Ok(Counted(Search.CountIn(SkillsOf(p), required), |required|))
  {
    var required := if "requiredSkills" in job then job["requiredSkills"].items else [];
    assert Search.ParticipantSkills(p) == Ok(SkillsOf(p));
    assert Get(job, "requiredSkills", JList([])) == JList(required);
    Search.MatchingSkillsCount(SkillsOf(p), required);
  }

  /** On well-formed data: the location scores iff some preferred location
      occurs in the job location, ignoring case. */
  lemma NearbyMeaning(p: Document, job: Document)
    requires WellFormedParticipant(p) && WellFormedJob(job)
    ensures var preferred := TextItems(p, "preferredLocations");
      var location := if "location" in job then job["location"].s else "";
      Nearby(p, job) == Ok(exists i :: 0 <= i < |preferred| && ContainsIgnoringCase(location, preferred[i].s))
  {
    assert Items(Get(p, "preferredLocations", JList([]))) == Ok(TextItems(p, "preferredLocations"));
  }

  /** On well-formed data: the industry scores iff the job's industry (or
      "" when absent) equals one of the preferred ones under `==`. */
  lemma LikedMeaning(p: Document, job: Document)
    requires WellFormedParticipant(p)
    ensures Liked(p, job) ==
      Ok("preferredIndustries" in p && PyContains(p["preferredIndustries"].items, Get(job, "industry", JStr(""))))
  {
  }

  /** An industry `0` matches a preferred `False`, as `==` has it. */
  lemma LikedBoolInt()
    ensures Liked(map["preferredIndustries" := JList([JBool(false)])], map["industry" := JInt(0)]) == Ok(true)
  {
    var preferred := [JBool(false)];
    assert PyEq(preferred[0], JInt(0));
    assert PyContains(preferred, JInt(0));
  }

  /** On well-formed data: the covered needs out of the needed ones. */
  lemma AccommodationScoreMeaning(p: Document, job: Document)
    requires WellFormedParticipant(p) && WellFormedJob(job)
    ensures var needed := TextItems(p, "accommodationsNeeded");
      AccommodationScore(p, job) ==
        Ok(Counted(CountCovered(needed, TextItems(job, "availableAccommodations")), |needed|))
  {
    var needed := TextItems(p, "accommodationsNeeded");
    assert Items(Get(job, "availableAccommodations", JList([]))) == Ok(TextItems(job, "availableAccommodations"));
  }

  /** Well-formed data always scores. */
  lemma ScoresOfWellFormed(p: Document, job: Document)
    requires WellFormedParticipant(p) && WellFormedJob(job)
    ensures ScoresOf(p, job).Ok?
  {
    SkillScoreMeaning(p, job);
    NearbyMeaning(p, job);
    LikedMeaning(p, job);
    AccommodationScoreMeaning(p, job);
  }

  // ---------------------------------------------------------------------
  // Elements and the weighted total

  /** The four categories, in the order the elements list them. */
  datatype Category = SkillsCategory | LocationCategory | IndustryCategory | AccommodationsCategory
  {
    /** The `category` text of the element. */
    function Name(): string
    {
      match this
      case SkillsCategory => "skills"
      case LocationCategory => "location"
      case IndustryCategory => "industry"
      case AccommodationsCategory => "accommodations"
    }

    /** The weight of the category, in fifths: 0.4 for skills, 0.2 for the
        others. */
    function Weight(): int
    {
      if this == SkillsCategory then 2 else 1
    }
  }

  /** The explanation of an element's score: either "<before><matched> of
      <total><after>" or a fixed sentence. */
  datatype Reasoning = Tally(before: string, matched: nat, total: nat, after: string) | Sentence(text: string)
  {
    /** The f-string the explanation is written with. */
    function Text(): string
    {
      match this
      case Tally(before, matched, total, after) =>
        before + NatToString(matched) + " of " + NatToString(total) + after
      case Sentence(text) => text
    }
  }

  datatype Element = Element(category: Category, factor: string, score: int, reasoning: Reasoning)

  function Percent(b: bool): int
  {
    if b then 100 else 0
  }

  const SkillsFactor := "Required skills match"
  const LocationFactor := "Location preference"
  const IndustryFactor := "Industry preference"
  const AccommodationsFactor := "Available accommodations"

  /** The four compatibility elements, skills first, each with its factor
      and an explanation of its score. */
  function Elements(sc: Scores): (r: seq<Element>)
    ensures |r| == 4
    ensures r[0].category == SkillsCategory && r[1].category == LocationCategory &&
            r[2].category == IndustryCategory && r[3].category == AccommodationsCategory
    ensures forall i :: 0 <= i < 4 ==> 0 <= r[i].score <= 100
    ensures r[0].score == Ratio(sc.skills) && r[3].score == Ratio(sc.accommodations)
    ensures (r[1].score == 100 <==> sc.location) && (r[2].score == 100 <==> sc.industry)
  {
    [ Element(SkillsCategory, SkillsFactor, Ratio(sc.skills), SkillsReasoning(sc.skills)),
      Element(LocationCategory, LocationFactor, Percent(sc.location), LocationReasoning(sc.location)),
      Element(IndustryCategory, IndustryFactor, Percent(sc.industry), IndustryReasoning(sc.industry)),
      Element(AccommodationsCategory, AccommodationsFactor, Ratio(sc.accommodations),
              AccommodationsReasoning(sc.accommodations)) ]
  }

  const ParticipantHas := "Participant has "
  const RequiredSkills := " required skills"
  const JobProvides := "Job provides "
  const NeededAccommodations := " needed accommodations"
  const NoSkillsRequired := "No skills required for this job"
  const LocationMatches := "Job location matches participant's preferred areas"
  const LocationDiffers := "Job location is not in participant's preferred areas"
  const IndustryMatches := "Job industry matches participant's preferred industries"
  const IndustryDiffers := "Job industry is not in participant's preferred industries"
  const NoAccommodationsNeeded := "No specific accommodations needed"

  function SkillsReasoning(c: Counted): Reasoning
  {
    if c.total > 0 then Tally(ParticipantHas, c.matched, c.total, RequiredSkills)
    else Sentence(NoSkillsRequired)
  }

  function LocationReasoning(near: bool): Reasoning
  {
    Sentence(if near then LocationMatches else LocationDiffers)
  }

  function IndustryReasoning(liked: bool): Reasoning
  {
    Sentence(if liked then IndustryMatches else IndustryDiffers)
  }

  function AccommodationsReasoning(c: Counted): Reasoning
  {
    if c.total > 0 then Tally(JobProvides, c.matched, c.total, NeededAccommodations)
    else Sentence(NoAccommodationsNeeded)
  }

  /** `sum(score * weight)` over the elements, in fifths. */
  function WeightedFifths(es: seq<Element>): int
    decreases |es|
  {
    if |es| == 0 then 0 else es[0].score * es[0].category.Weight() + WeightedFifths(es[1..])
  }

  /** `int(total_score)`: the weighted average, truncated. */
  function MatchScore(sc: Scores): (r: int)
    ensures 0 <= r <= 100
    ensures r == (2 * Ratio(sc.skills) + Percent(sc.location) + Percent(sc.industry) + Ratio(sc.accommodations)) / 5
  {
    var es := Elements(sc);
    WeightedFour(es);
    WeightedFifths(es) / 5
  }

  lemma WeightedFour(es: seq<Element>)
    requires |es| == 4
    ensures WeightedFifths(es) == es[0].score * es[0].category.Weight() + es[1].score * es[1].category.Weight() +
                                  es[2].score * es[2].category.Weight() + es[3].score * es[3].category.Weight()
  {
    var e1 := es[1..];
    var e2 := e1[1..];
    var e3 := e2[1..];
    assert e3[1..] == [];
    assert WeightedFifths(e3) == es[3].score * es[3].category.Weight();
    assert WeightedFifths(e2) == es[2].score * es[2].category.Weight() + WeightedFifths(e3);
    assert WeightedFifths(e1) == es[1].score * es[1].category.Weight() + WeightedFifths(e2);
  }

  /** A perfect profile scores 100 and an empty one 0. */
  lemma MatchScoreExtremes(sc: Scores)
    ensures Ratio(sc.skills) == 100 && sc.location && sc.industry && Ratio(sc.accommodations) == 100 ==>
      MatchScore(sc) == 100
    ensures Ratio(sc.skills) == 0 && !sc.location && !sc.industry && Ratio(sc.accommodations) == 0 ==>
      MatchScore(sc) == 0
  {
  }

  function ElementJson(e: Element): Json
  {
    JObj(map["category" := JStr(e.category.Name()), "factor" := JStr(e.factor),
             "score" := JInt(e.score), "reasoning" := JStr(e.reasoning.Text())])
  }

  function ElementsJson(es: seq<Element>): (r: seq<Json>)
    ensures |r| == |es| && forall i :: 0 <= i < |es| ==> r[i] == ElementJson(es[i])
  {
    seq(|es|, i requires 0 <= i < |es| => ElementJson(es[i]))
  }

  /** The dict `calculate_compatibility` returns. */
  function CompatibilityDoc(score: int, elements: seq<Json>): Document
  {
    map["matchScore" := JInt(score), "compatibilityElements" := JList(elements)]
  }

  /** `calculate_compatibility`, or the exception it raises. */
  function Compatibility(p: Document, job: Document): Result<Document>
  {
    match ScoresOf(p, job)
    case Err(e) => Err(e)
    case Ok(sc) => Ok(CompatibilityDoc(MatchScore(sc), ElementsJson(Elements(sc))))
  }

  /** The dict holds the match score, between 0 and 100, and the four
      elements built from the same scores. */
  lemma CompatibilityDocShape(sc: Scores)
    ensures var d := CompatibilityDoc(MatchScore(sc), ElementsJson(Elements(sc)));
      d.Keys == {"matchScore", "compatibilityElements"} &&
      d["matchScore"] == JInt(MatchScore(sc)) && 0 <= d["matchScore"].i <= 100 &&
      d["compatibilityElements"] == JList(ElementsJson(Elements(sc))) &&
      |d["compatibilityElements"].items| == 4
  {
    var score := MatchScore(sc);
    var elements := ElementsJson(Elements(sc));
    var d := CompatibilityDoc(score, elements);
    assert d["matchScore"] == JInt(score) && d["compatibilityElements"] == JList(elements);
  }

  /** The participant of `SkillScoreClamped` reads as two technical
      copies of the skill. */
  lemma TwiceListedSkills(two: seq<Json>)
    requires two == [JStr("Python"), JStr("Python")]
    ensures Search.ParticipantSkills(map["skills" := JObj(map["technical" := JList(two)])]) == Ok(two)
  {
    var skills := map["technical" := JList(two)];
    assert Search.ItemsOrNone(skills, "technical") == Ok(two);
    assert Search.ItemsOrNone(skills, "soft") == Ok([]);
    assert two + [] == two;
  }

  /** The skill score is clamped: a participant listing the one required
      skill twice scores 100 for skills, where the plain ratio is 200. */
  lemma SkillScoreClamped()
    ensures var p := map["skills" := JObj(map["technical" := JList([JStr("Python"), JStr("Python")])])];
      var job := map["requiredSkills" := JList([JStr("Python")])];
      SkillScore(p, job) == Ok(Counted(2, 1)) && 100 * 2 / 1 == 200 && Ratio(Counted(2, 1)) == 100
  {
    var two := [JStr("Python"), JStr("Python")];
    TwiceListedSkills(two);
    PyContainsMember([JStr("Python")], JStr("Python"));
    Search.MatchingAllRequired(two, JList([JStr("Python")]));
    RatioMeaning(Counted(2, 1));
  }

  /** `calculate_compatibility`: the scores computed, then the dict built. */
  method CalculateCompatibility(p: Document, job: Document) returns (r: Result<Document>)
    ensures r == Compatibility(p, job)
  {
    var sc := ComputeScores(p, job);
    if sc.Err? {
      return Err(sc.error);
    }
    r := Ok(CompatibilityDoc(MatchScore(sc.value), ElementsJson(Elements(sc.value))));
  }

  /** The data read step by step, the location loop stopping at the first
      match. */
  method ComputeScores(p: Document, job: Document) returns (r: Result<Scores>)
    ensures r == ScoresOf(p, job)
  {
    var skillCount := SkillScore(p, job);
    if skillCount.Err? {
      return Err(skillCount.error);
    }
    var preferred := Items(Get(p, "preferredLocations", JList([])));
    if preferred.Err? {
      return Err(preferred.error);
    }
    var near := Search.ScanLocations(preferred.value, Ok(Get(job, "location", JStr(""))));
    if near.Err? {
      return Err(near.error);
    }
    var liked := Liked(p, job);
    if liked.Err? {
      return Err(liked.error);
    }
    var accCount := AccommodationScore(p, job);
    if accCount.Err? {
      return Err(accCount.error);
    }
    r := Ok(Scores(skillCount.value, near.value, liked.value, accCount.value));
  }

  // ---------------------------------------------------------------------
  // Suggested matches

  const ReferenceKeys: seq<string> :=
    ["title", "employer", "companyName", "location", "employmentType", "shortDescription", "salary", "postedDate"]

  /** `{k: job[k] for k in keys}` written out key by key: a missing key
      raises KeyError. */
  function Picked(job: Document, keys: seq<string>): (r: Result<Document>)
    ensures (forall i :: 0 <= i < |keys| ==> keys[i] in job) ==>
      r.Ok? && r.value.Keys == (set i | 0 <= i < |keys| :: keys[i]) &&
      forall k :: k in r.value ==> r.value[k] == job[k]
    ensures (exists i :: 0 <= i < |keys| && keys[i] !in job) ==> r == Err("KeyError")
    decreases |keys|
  {
    if |keys| == 0 then Ok(map[])
    else
      match Subscript(JObj(job), keys[0])
      case Err(e) => Err(e)
      case Ok(v) =>
        match Picked(job, keys[1..])
        case Err(e) => Err(e)
        case Ok(rest) =>
          assert forall i :: 1 <= i < |keys| ==> keys[i] == keys[1..][i - 1];
          assert (set i | 0 <= i < |keys| :: keys[i]) == {keys[0]} + (set i | 0 <= i < |keys[1..]| :: keys[1..][i]);
          Ok(rest[keys[0] := v])
  }

  /** `participant_data.get(k, "")` for the reference fields. */
  function ParticipantReference(p: Document): Document
  {
    map["fullName" := Get(p, "fullName", JStr("")), "email" := Get(p, "email", JStr("")),
        "disabilityType" := Get(p, "disabilityType", JStr("")),
        "currentStatus" := Get(p, "currentStatus", JStr(""))]
  }

  const SuggestedNote := "Automatically suggested by the system"
  const RecommendedActions: seq<Json> := [JStr("Review job details"), JStr("Discuss with coach")]

  /** The three clock readings one match dict takes, in the order the
      dict literal makes them: `createdAt`, `updatedAt`, and the history
      entry's `date`. */
  datatype Stamps = Stamps(created: string, updated: string, listed: string)

  /** The readings of the k-th match of a call, when `clock(n)` is the
      n-th reading the call makes: each match takes the next three. */
  function StampsAt(clock: nat -> string, k: nat): (t: Stamps)
    ensures t.created == clock(3 * k) && t.updated == clock(3 * k + 1) && t.listed == clock(3 * k + 2)
  {
    Stamps(clock(3 * k), clock(3 * k + 1), clock(3 * k + 2))
  }

  /** The single history entry of a fresh suggestion. */
  function SuggestedHistory(date: string): Json
  {
    JList([JObj(map["status" := JStr("suggested"), "date" := JStr(date), "notes" := JStr(SuggestedNote)])])
  }

  /** A fresh suggestion: status "suggested", source "system-generated",
      one history entry dated by its own reading, and the creation and
      update times of their own readings. */
  predicate Fresh(m: Document, participantId: string, id: string, t: Stamps)
  {
    "status" in m && m["status"] == JStr("suggested") &&
    "source" in m && m["source"] == JStr("system-generated") &&
    "statusHistory" in m && m["statusHistory"] == SuggestedHistory(t.listed) &&
    "id" in m && m["id"] == JStr(id) &&
    "participantId" in m && m["participantId"] == JStr(participantId) &&
    "createdAt" in m && m["createdAt"] == JStr(t.created) &&
    "updatedAt" in m && m["updatedAt"] == JStr(t.updated)
  }

  /** The job id, the compatibility and both references, as the match
      dict carries them. */
  predicate Carries(r: Document, jobId: Json, compat: Document, jobRef: Document, participantRef: Document)
    requires "matchScore" in compat && "compatibilityElements" in compat
  {
    "jobId" in r && r["jobId"] == jobId && "matchScore" in r && r["matchScore"] == compat["matchScore"] &&
    "compatibilityElements" in r && r["compatibilityElements"] == compat["compatibilityElements"] &&
    "jobReference" in r && r["jobReference"] == JObj(jobRef) &&
    "participantReference" in r && r["participantReference"] == JObj(participantRef)
  }

  /** The match dict: a suggested, system-generated match with the three
      clock readings, carrying the compatibility and both references. */
  function MatchDoc(participantId: string, jobId: Json, compat: Document, jobRef: Document,
                    participantRef: Document, id: string, t: Stamps): (r: Document)
    requires "matchScore" in compat && "compatibilityElements" in compat
    ensures Fresh(r, participantId, id, t)
    ensures Carries(r, jobId, compat, jobRef, participantRef)
  {
    var carried := map["jobId" := jobId, "matchScore" := compat["matchScore"],
                       "compatibilityElements" := compat["compatibilityElements"],
                       "jobReference" := JObj(jobRef), "participantReference" := JObj(participantRef),
                       "recommendedActions" := JList(RecommendedActions)];
    carried["id" := JStr(id)]["participantId" := JStr(participantId)]
           ["createdAt" := JStr(t.created)]["updatedAt" := JStr(t.updated)]
           ["source" := JStr("system-generated")]["status" := JStr("suggested")]
           ["statusHistory" := SuggestedHistory(t.listed)]
  }

  /** The match dict around a computed compatibility, or the KeyError of a
      job lacking its id or a reference field. */
  function Assembled(participantId: string, p: Document, job: Document, compat: Document, id: string, t: Stamps)
    : (r: Result<Document>)
    requires "matchScore" in compat && "compatibilityElements" in compat
    ensures r.Ok? <==> "id" in job && forall i :: 0 <= i < |ReferenceKeys| ==> ReferenceKeys[i] in job
    ensures r.Ok? ==> Fresh(r.value, participantId, id, t)
  {
    match Subscript(JObj(job), "id")
    case Err(e) => Err(e)
    case Ok(jobId) =>
      match Picked(job, ReferenceKeys)
      case Err(e) => Err(e)
      case Ok(jobRef) => Ok(MatchDoc(participantId, jobId, compat, jobRef, ParticipantReference(p), id, t))
  }

  /** The job match built for one searched job; `id` stands for the fresh
      uuid and `t` for the three clock readings. */
  function Suggestion(participantId: string, p: Document, job: Document, id: string, t: Stamps)
    : (r: Result<Document>)
  {
    match Compatibility(p, job)
    case Err(e) => Err(e)
    case Ok(compat) => Assembled(participantId, p, job, compat, id, t)
  }

  /** A suggestion is made exactly when the compatibility computes and the
      job has its id and every reference field. */
  lemma SuggestionSucceeds(participantId: string, p: Document, job: Document, id: string, t: Stamps)
    ensures Suggestion(participantId, p, job, id, t).Ok? <==>
      (Compatibility(p, job).Ok? && "id" in job &&
       forall i :: 0 <= i < |ReferenceKeys| ==> ReferenceKeys[i] in job)
  {
  }

  /** The suggestion for the k-th ranked job. */
  function SuggestFor(participantId: string, p: Document, newId: nat -> string, clock: nat -> string)
    : (Document, nat) -> Result<Document>
  {
    (job: Document, k: nat) => Suggestion(participantId, p, job, newId(k), StampsAt(clock, k))
  }

  /** One suggestion per ranked job, in ranking order; the k-th takes
      `newId(k)` and the k-th three clock readings. */
  function Suggestions(participantId: string, p: Document, jobs: seq<Document>, newId: nat -> string,
                       clock: nat -> string)
    : Result<seq<Document>>
  {
    MapAll(jobs, SuggestFor(participantId, p, newId, clock))
  }

  /** Every suggestion is fresh: suggested, system-generated, with a single
      history entry, and the k-th carries the k-th id and the clock
      readings 3k, 3k+1 and 3k+2; there is one per ranked job. */
  lemma SuggestionsFresh(participantId: string, p: Document, jobs: seq<Document>, newId: nat -> string,
                         clock: nat -> string)
    ensures var r := Suggestions(participantId, p, jobs, newId, clock);
      r.Ok? ==>
        |r.value| == |jobs| &&
        forall i :: 0 <= i < |r.value| ==> Fresh(r.value[i], participantId, newId(i), StampsAt(clock, i))
  {
    var r := Suggestions(participantId, p, jobs, newId, clock);
    if r.Ok? {
      forall i | 0 <= i < |r.value| ensures Fresh(r.value[i], participantId, newId(i), StampsAt(clock, i)) {
        var t := StampsAt(clock, i);
        assert Suggestion(participantId, p, jobs[i], newId(i), t) == Ok(r.value[i]) by {
          assert SuggestFor(participantId, p, newId, clock)(jobs[i], i) == Ok(r.value[i]);
        }
        match Compatibility(p, jobs[i])
        case Ok(compat) =>
          assert Suggestion(participantId, p, jobs[i], newId(i), t)
              == Assembled(participantId, p, jobs[i], compat, newId(i), t);
      }
    }
  }

  /** The loop body of `find_matches_for_participant`. */
  method SuggestOne(participantId: string, p: Document, job: Document, id: string, t: Stamps)
    returns (r: Result<Document>)
    ensures r == Suggestion(participantId, p, job, id, t)
  {
    var compatibility := CalculateCompatibility(p, job);
    if compatibility.Err? {
      return Err(compatibility.error);
    }
    r := Assembled(participantId, p, job, compatibility.value, id, t);
  }

  /** The loop of `find_matches_for_participant` over the ranked jobs: the
      first failing job's exception escapes. */
  method SuggestAll(participantId: string, p: Document, jobs: seq<Document>, newId: nat -> string,
                    clock: nat -> string)
    returns (r: Result<seq<Document>>)
    ensures r == Suggestions(participantId, p, jobs, newId, clock)
  {
    var results: seq<Document> := [];
    for i := 0 to |jobs|
      invariant Suggestions(participantId, p, jobs[..i], newId, clock) == Ok(results)
    {
      MapAllStep(jobs, SuggestFor(participantId, p, newId, clock), i);
      var t := StampsAt(clock, i);
      assert SuggestFor(participantId, p, newId, clock)(jobs[i], i) == Suggestion(participantId, p, jobs[i], newId(i), t);
      var m := SuggestOne(participantId, p, jobs[i], newId(i), t);
      if m.Err? {
        MapAllStops(jobs, SuggestFor(participantId, p, newId, clock), i + 1);
        return Err(m.error);
      }
      results := results + [m.value];
    }
    assert jobs[..|jobs|] == jobs;
    r := Ok(results);
  }

  class JobMatchingService {
    const aiSearch: Search.AISearchService

    constructor(aiSearch: Search.AISearchService)
      ensures this.aiSearch == aiSearch
    {
      this.aiSearch := aiSearch;
    }

    /** `find_matches_for_participant`: the ranked jobs of the search
      service, each made a suggested match with its own compatibility. */
    method FindMatchesForParticipant(participantId: string, p: Document, limit: int,
                                     newId: nat -> string, clock: nat -> string)
      returns (r: Result<seq<Document>>)
      ensures var ranked := Search.Ranked(p, aiSearch.sampleJobs, limit);
        (ranked.Err? ==> r == Err(ranked.error)) &&
        (ranked.Ok? ==> r == Suggestions(participantId, p, ranked.value, newId, clock))
    {
      var jobs := aiSearch.FindJobMatches(p, limit);
      if jobs.Err? {
        return Err(jobs.error);
      }
      r := SuggestAll(participantId, p, jobs.value, newId, clock);
    }

    /** `find_matches_for_job`: not implemented by the service, always
      empty. */
    method FindMatchesForJob(jobId: string, job: Document, limit: int) returns (r: seq<Document>)
      ensures r == []
    {
      r := [];
    }
  }
}
