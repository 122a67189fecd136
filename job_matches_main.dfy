/** The semantic job-matches service: a user profile reduced to the fields
    the search uses, the search text built from them, and the search hits
    ranked by their score and numbered from 1. */
module JobMatchesMain {
  import opened Wrappers
  import opened Strings
  import opened Json
  import opened Sorting

  const NotAvailable := "N/A"

  // ---------------------------------------------------------------------
  // process_user_profile

  const NoSkills := JObj(map["technical" := JList([]), "soft" := JList([])])

  /** A processed profile: the nine fields the search uses. */
  datatype Processed = Processed(
    primaryLanguage: Json, disabilityType: Json, accommodationsNeeded: Json,
    transportationStatus: Json, employmentGoal: Json, skills: Json, workHistory: Json,
    preferredLocations: Json, preferredIndustries: Json)

  /** `process_user_profile`'s first result: each field taken from the
      profile, or defaulted to an empty text, an empty list, or no
      technical and no soft skills. */
  function ProcessProfile(p: Document): (r: Processed)
    ensures "skills" !in p ==> r.skills == NoSkills
    ensures "employmentGoal" in p ==> r.employmentGoal == p["employmentGoal"]
  {
    Processed(
      Get(p, "primaryLanguage", JStr("")),
      Get(p, "disabilityType", JStr("")),
      Get(p, "accommodationsNeeded", JList([])),
      Get(p, "transportationStatus", JStr("")),
      Get(p, "employmentGoal", JStr("")),
      Get(p, "skills", NoSkills),
      Get(p, "workHistory", JList([])),
      Get(p, "preferredLocations", JList([])),
      Get(p, "preferredIndustries", JList([])))
  }

  /** The processed empty profile: empty texts, empty lists, no skills. */
  const EmptyProcessed := Processed(JStr(""), JStr(""), JList([]), JStr(""), JStr(""), NoSkills,
                                    JList([]), JList([]), JList([]))

  /** A profile without any of the nine fields is processed to all
      defaults, whatever else it holds. */
  lemma ProcessProfileDefaults(p: Document)
    requires forall k :: k in p ==> k !in {"primaryLanguage", "disabilityType", "accommodationsNeeded",
      "transportationStatus", "employmentGoal", "skills", "workHistory", "preferredLocations", "preferredIndustries"}
    ensures ProcessProfile(p) == EmptyProcessed
  {
  }

  // ---------------------------------------------------------------------
  // The search text

  /** A value placed directly in the list `" ".join` receives: only a
      string can be joined. */
  function TextPart(j: Json): (r: Result<string>)
    ensures r.Ok? <==> j.JStr?
    ensures r.Ok? ==> r.value == j.s
  {
    if j.JStr? then Ok(j.s) else Err("TypeError")
  }

  /** `skills.get(kind, [])` joined: `skills` must be a dict. */
  function SkillPart(skills: Json, kind: string): Result<string>
  {
    if skills.JObj? then SpaceJoined(Get(skills.fields, kind, JList([]))) else Err("AttributeError")
  }

  /** The three values placed in the list as they are (goal, language,
      transportation), as the outer join takes them. */
  function DirectParts(pp: Processed): (r: Result<seq<string>>)
    ensures r.Ok? <==> pp.employmentGoal.JStr? && pp.primaryLanguage.JStr? && pp.transportationStatus.JStr?
    ensures r.Err? ==> r.error == "TypeError"
  {
    match TextPart(pp.employmentGoal)
    case Err(e) => Err(e)
    case Ok(goal) =>
      match TextPart(pp.primaryLanguage)
      case Err(e) => Err(e)
      case Ok(language) =>
        match TextPart(pp.transportationStatus)
        case Err(e) => Err(e)
        case Ok(transportation) => Ok([goal, language, transportation])
  }

  /** The five inner joins, evaluated while the list is built: industries,
      locations, soft skills, technical skills, accommodations. */
  function JoinedParts(pp: Processed): seq<Result<string>>
  {
    [SpaceJoined(pp.preferredIndustries),
     SpaceJoined(pp.preferredLocations),
     SkillPart(pp.skills, "soft"),
     SkillPart(pp.skills, "technical"),
     SpaceJoined(pp.accommodationsNeeded)]
  }

  function Part(r: Result<string>, i: nat): Result<string> { r }

  /** The eight texts joined into the search text: the list is built first,
      so the inner joins run (the first failure escaping) before the outer
      join checks that the three direct values are strings. */
  function QueryTexts(profile: Document): Result<seq<string>>
  {
    var pp := ProcessProfile(profile);
    match MapAll(JoinedParts(pp), Part)
    case Err(e) => Err(e)
    case Ok(joined) =>
      match DirectParts(pp)
      case Err(e) => Err(e)
      case Ok(direct) => Ok(direct + joined)
  }

  /** `process_user_profile`'s search text: the eight texts joined by
      single spaces. */
  function Query(profile: Document): (r: Result<string>)
  {
    match QueryTexts(profile)
    case Err(e) => Err(e)
    case Ok(parts) => Ok(Join(" ", parts))
  }

  /** A failing inner join escapes before the direct values are looked at;
      with every inner join done, a direct value that is not a string is
      the outer join's TypeError. */
  lemma QueryErrorOrder(profile: Document)
    ensures var pp := ProcessProfile(profile);
      var joined := MapAll(JoinedParts(pp), Part);
      (joined.Err? ==> Query(profile) == Err(joined.error)) &&
      (joined.Ok? && !(pp.employmentGoal.JStr? && pp.primaryLanguage.JStr? && pp.transportationStatus.JStr?) ==>
         Query(profile) == Err("TypeError"))
  {
  }

  /** The search text always holds all eight parts with exactly seven
      separating spaces, empty parts included. */
  lemma QuerySeparators(profile: Document)
    requires Query(profile).Ok?
    ensures var parts := QueryTexts(profile).value;
      |parts| == 8 && |Query(profile).value| == SumLengths(parts) + 7
  {
    var parts := QueryTexts(profile).value;
    JoinLength(" ", parts);
  }

  /** Joining empty parts leaves only the separators. */
  lemma {:induction false} JoinOfEmpties(parts: seq<string>)
    requires |parts| > 0 && forall i :: 0 <= i < |parts| ==> parts[i] == ""
    ensures Join(" ", parts) == seq(|parts| - 1, _ => ' ')
    decreases |parts|
  {
    if |parts| > 1 {
      JoinOfEmpties(parts[1..]);
    }
  }

  /** The five inner joins of the empty profile give empty texts. */
  lemma EmptyInnerJoins()
    ensures MapAll(JoinedParts(EmptyProcessed), Part) == Ok(["", "", "", "", ""])
  {
    var joined := JoinedParts(EmptyProcessed);
    assert Join(" ", []) == "";
    assert forall i :: 0 <= i < 5 ==> Part(joined[i], i) == Ok("");
    var m := MapAll(joined, Part);
    assert m.Ok? && |m.value| == 5;
    assert forall i :: 0 <= i < 5 ==> m.value[i] == "";
    assert m.value == ["", "", "", "", ""];
  }

  /** An empty profile gives seven spaces. */
  lemma QueryOfEmptyProfile()
    ensures Query(map[]) == Ok("       ")
  {
    assert ProcessProfile(map[]) == EmptyProcessed;
    EmptyInnerJoins();
    assert DirectParts(EmptyProcessed) == Ok(["", "", ""]);
    var parts := ["", "", ""] + ["", "", "", "", ""];
    assert QueryTexts(map[]) == Ok(parts);
    JoinOfEmpties(parts);
    assert seq(7, _ => ' ') == "       ";
  }

  /** A processed profile whose direct values are strings and whose other
      values, skill groups included, iterate to strings. */
  predicate WellTyped(pp: Processed)
  {
    pp.employmentGoal.JStr? && pp.primaryLanguage.JStr? && pp.transportationStatus.JStr? &&
    IteratesText(pp.preferredIndustries) && IteratesText(pp.preferredLocations) &&
    IteratesText(pp.accommodationsNeeded) &&
    pp.skills.JObj? &&
    IteratesText(Get(pp.skills.fields, "soft", JList([]))) &&
    IteratesText(Get(pp.skills.fields, "technical", JList([])))
  }

  /** A profile has a search text exactly when it is well typed. */
  lemma QueryOfWellTyped(p: Document)
    ensures Query(p).Ok? <==> WellTyped(ProcessProfile(p))
  {
    var pp := ProcessProfile(p);
    var joined := JoinedParts(pp);
    if WellTyped(pp) {
      assert forall i :: 0 <= i < |joined| ==> Part(joined[i], i).Ok?;
    }
    if Query(p).Ok? {
      assert MapAll(joined, Part).Ok? && DirectParts(pp).Ok?;
      assert Part(joined[0], 0).Ok? && Part(joined[1], 1).Ok? && Part(joined[2], 2).Ok?;
      assert Part(joined[3], 3).Ok? && Part(joined[4], 4).Ok?;
    }
  }

  // ---------------------------------------------------------------------
  // run

  /** A search hit: its fields and the score the search gave it. */
  datatype Hit = Hit(fields: Document, score: Option<int>)

  /** The six job fields of a result. */
  datatype Details = Details(id: Json, title: Json, employer: Json, description: Json,
                             employmentType: Json, location: Json)

  /** One collected result: the job fields and the score. */
  datatype Row = Row(details: Details, score: int)

  /** A numbered match of the final output. */
  datatype Matched = Matched(jobId: nat, matchScore: int, details: Details)

  /** The final output: the number of results and the numbered matches. */
  datatype Matches = Matches(total: nat, matches: seq<Matched>)

  /** The result collected for one hit: every missing field is `N/A` and a
      missing score is 0. */
  function RowOf(h: Hit): (r: Row)
    ensures "title" !in h.fields ==> r.details.title == JStr(NotAvailable)
    ensures h.score.None? ==> r.score == 0
  {
    Row(Details(Get(h.fields, "id", JStr(NotAvailable)),
                Get(h.fields, "title", JStr(NotAvailable)),
                Get(h.fields, "employer", JStr(NotAvailable)),
                Get(h.fields, "description", JStr(NotAvailable)),
                Get(h.fields, "employmentType", JStr(NotAvailable)),
                Get(h.fields, "location", JStr(NotAvailable))),
        h.score.GetOr(0))
  }

  function Rows(hits: seq<Hit>): (r: seq<Row>)
    ensures |r| == |hits| && forall i :: 0 <= i < |hits| ==> r[i] == RowOf(hits[i])
  {
    seq(|hits|, i requires 0 <= i < |hits| => RowOf(hits[i]))
  }

  /** `sorted(key=azure_score, reverse=True)`. */
  function ByScoreDesc(a: Row, b: Row): int
  {
    b.score - a.score
  }

  lemma ByScoreDescIsComparator()
    ensures IsComparator(ByScoreDesc)
  {
    forall a, b ensures Sign(ByScoreDesc(a, b)) == -Sign(ByScoreDesc(b, a)) {
    }
  }

  function NumberedMatch(rows: seq<Row>, i: nat): Matched
    requires i < |rows|
  {
    Matched(i + 1, rows[i].score, rows[i].details)
  }

  /** `run`'s output for the hits the search returned. */
  function Ranked(hits: seq<Hit>): Matches
  {
    var sorted := SortBy(ByScoreDesc, Rows(hits));
    Matches(|hits|, seq(|sorted|, i requires 0 <= i < |sorted| => NumberedMatch(sorted, i)))
  }

  /** The total is the number of hits and of matches, and the matches are
      the sorted results numbered 1..n. */
  lemma RankedNumbered(hits: seq<Hit>)
    ensures var r := Ranked(hits);
      var sorted := SortBy(ByScoreDesc, Rows(hits));
      r.total == |hits| == |r.matches| &&
      forall i :: 0 <= i < |r.matches| ==>
        r.matches[i].jobId == i + 1 &&
        r.matches[i].matchScore == sorted[i].score && r.matches[i].details == sorted[i].details
  {
  }

  /** The matches run from the highest score to the lowest. */
  lemma RankedOrdered(hits: seq<Hit>)
    ensures var r := Ranked(hits);
      forall i, j :: 0 <= i < j < |r.matches| ==> r.matches[i].matchScore >= r.matches[j].matchScore
  {
    var sorted := SortBy(ByScoreDesc, Rows(hits));
    ByScoreDescIsComparator();
    SortBySorted(ByScoreDesc, Rows(hits));
    var r := Ranked(hits);
    forall i, j | 0 <= i < j < |r.matches| ensures r.matches[i].matchScore >= r.matches[j].matchScore {
      assert ByScoreDesc(sorted[i], sorted[j]) <= 0;
    }
  }

  /** Sorting only reorders the collected results and keeps equal scores
      in search order. */
  lemma RankedReorders(hits: seq<Hit>, y: Row)
    ensures var sorted := SortBy(ByScoreDesc, Rows(hits));
      multiset(sorted) == multiset(Rows(hits)) &&
      Ties(ByScoreDesc, sorted, y) == Ties(ByScoreDesc, Rows(hits), y)
  {
    ByScoreDescIsComparator();
    SortByPermutes(ByScoreDesc, Rows(hits));
    SortByStable(ByScoreDesc, Rows(hits), y);
  }

  /** `run`: the search text is searched, the hits collected one by one,
      sorted, and numbered one by one. The search client is the `search`
      parameter. */
  method Run(profile: Document, search: string -> seq<Hit>) returns (r: Result<Matches>)
    ensures Query(profile).Err? ==> r == Err(Query(profile).error)
    ensures Query(profile).Ok? ==> r == Ok(Ranked(search(Query(profile).value)))
  {
    var query := Query(profile);
    if query.Err? {
      return Err(query.error);
    }
    var hits := search(query.value);
    var rows: seq<Row> := [];
    for i := 0 to |hits|
      invariant rows == Rows(hits[..i])
    {
      rows := rows + [RowOf(hits[i])];
    }
    assert hits[..|hits|] == hits;
    var sorted := SortBy(ByScoreDesc, rows);
    var detailed: seq<Matched> := [];
    for i := 0 to |sorted|
      invariant |detailed| == i
      invariant forall j :: 0 <= j < i ==> detailed[j] == NumberedMatch(sorted, j)
    {
      detailed := detailed + [Matched(i + 1, sorted[i].score, sorted[i].details)];
    }
    assert rows == Rows(hits);
    assert detailed == Ranked(hits).matches;
    r := Ok(Matches(|rows|, detailed));
  }
}
