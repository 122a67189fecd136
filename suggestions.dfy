/** The job-suggestions page: score badges, category labels, the factors
    and category tags shown per suggestion, participant selection and the
    per-job "saving" flags. */
module Suggestions {
  import opened Wrappers
  import opened Strings
  import opened Tables
  import opened Tags
  import opened Previews

  datatype Badge = HighScore | MediumScore | LowScore

  /** 80 and above is high, 60 to 79 medium, anything lower low. */
  function ScoreBadge(score: int): (b: Badge)
    ensures b == HighScore <==> score >= 80
    ensures b == MediumScore <==> 60 <= score < 80
    ensures b == LowScore <==> score < 60
  {
    if score >= 80 then HighScore else if score >= 60 then MediumScore else LowScore
  }

  /** The badge never falls as the score rises. */
  lemma ScoreBadgeMonotone(a: int, b: int)
    requires a <= b
    ensures ScoreBadge(a) == HighScore ==> ScoreBadge(b) == HighScore
    ensures ScoreBadge(b) == LowScore ==> ScoreBadge(a) == LowScore
  {
  }

  /** The categories with a fixed label, in the order the page lists them. */
  const CategoryLabels: seq<(string, string)> := [
    ("supportiveEnvironment", "Supportive Environment"),
    ("employmentType", "Employment Type"),
    ("accessibilityFeatures", "Accessibility"),
    ("availableAccommodations", "Accommodations"),
    ("employmentGoal", "Career Goals"),
    ("transportationAccess", "Transportation"),
    ("workHistory", "Experience"),
    ("hoursPerWeek", "Hours"),
    ("schedule", "Schedule"),
    ("language", "Language"),
    ("location", "Location"),
    ("industry", "Industry"),
    ("skills", "Skills")]

  /** The first character upper-cased, the rest unchanged. */
  function Capitalize(s: string): (r: string)
    ensures |r| == |s|
    ensures |s| > 0 ==> r[0] == UpperChar(s[0]) && r[1..] == s[1..]
  {
    if |s| == 0 then "" else [UpperChar(s[0])] + s[1..]
  }

  lemma CapitalizeIdempotent(s: string)
    ensures Capitalize(Capitalize(s)) == Capitalize(s)
  {
  }

  /** A listed category takes its label; any other text is capitalised. */
  function FormatCategory(category: string): (r: string)
    ensures Lookup(CategoryLabels, category).Some? ==> r == Lookup(CategoryLabels, category).value
    ensures Lookup(CategoryLabels, category).None? ==> r == Capitalize(category)
  {
    match Lookup(CategoryLabels, category)
    case Some(text) => text
    case None => Capitalize(category)
  }

  lemma CategoryLabelsDistinct()
    ensures |CategoryLabels| == 13 && DistinctKeys(CategoryLabels)
  {
  }

  /** The thirteen labels, each under its own category, and "" for "". */
  lemma FormatCategoryCases()
    ensures forall i :: 0 <= i < |CategoryLabels| ==>
      FormatCategory(CategoryLabels[i].0) == CategoryLabels[i].1
    ensures FormatCategory("") == ""
  {
    CategoryLabelsDistinct();
    forall i | 0 <= i < |CategoryLabels|
      ensures FormatCategory(CategoryLabels[i].0) == CategoryLabels[i].1
    {
      LookupEntry(CategoryLabels, i);
    }
    NoEmptyCategory();
  }

  lemma NoEmptyCategory()
    ensures Lookup(CategoryLabels, "") == None
  {
    assert forall i :: 0 <= i < |CategoryLabels| ==> |CategoryLabels[i].0| > 0;
  }

  /** One compatibility element of a suggestion. */
  datatype Element = Element(category: string, factor: string, reasoning: string, score: int)

  /** At most the first three elements, in their order. */
  function TopFactors(es: seq<Element>): (r: seq<Element>)
    ensures |r| == if |es| < 3 then |es| else 3
    ensures r == es[..|r|]
  {
    if |es| < 3 then es else es[..3]
  }

  /** The distinct texts of `xs` in order of first occurrence
      (`Array.from(new Set(xs))`). */
  function Unique(xs: seq<string>): (r: seq<string>)
    ensures Distinct(r)
    ensures forall x :: x in r <==> x in xs
    decreases |xs|
  {
    if |xs| == 0 then [] else WithTag(Unique(xs[..|xs| - 1]), xs[|xs| - 1])
  }

  /** The index of the first occurrence. */
  function FirstIndex(xs: seq<string>, x: string): (k: nat)
    requires x in xs
    ensures k < |xs| && xs[k] == x && x !in xs[..k]
  {
    if xs[0] == x then 0
    else
      var k := 1 + FirstIndex(xs[1..], x);
      assert xs[..k] == [xs[0]] + xs[1..][..k - 1];
      k
  }

  lemma FirstIndexPrefix(xs: seq<string>, n: nat, x: string)
    requires n <= |xs| && x in xs[..n]
    ensures x in xs && FirstIndex(xs, x) == FirstIndex(xs[..n], x)
  {
    var k := FirstIndex(xs[..n], x);
    var m := FirstIndex(xs, x);
    assert xs[..n][k] == xs[k];
    assert forall j :: 0 <= j < m ==> xs[..m][j] == xs[j];
    assert forall j :: 0 <= j < k ==> xs[..n][..k][j] == xs[j];
  }

  /** The unique texts come in the order of their first occurrence. */
  lemma {:induction false} UniqueKeepsFirstOccurrenceOrder(xs: seq<string>)
    ensures forall i, j :: 0 <= i < j < |Unique(xs)| ==>
      FirstIndex(xs, Unique(xs)[i]) < FirstIndex(xs, Unique(xs)[j])
    decreases |xs|
  {
    if |xs| > 0 {
      var n := |xs| - 1;
      var p := xs[..n];
      var u := Unique(p);
      UniqueKeepsFirstOccurrenceOrder(p);
      var r := Unique(xs);
      forall i, j | 0 <= i < j < |r| ensures FirstIndex(xs, r[i]) < FirstIndex(xs, r[j]) {
        assert r[i] in u;
        FirstIndexPrefix(xs, n, r[i]);
        if j < |u| {
          FirstIndexPrefix(xs, n, r[j]);
        } else {
          assert r[j] == xs[n] && r[j] !in p;
          assert FirstIndex(xs, r[j]) == n;
        }
      }
    }
  }

  /** The category tags of a suggestion: its distinct categories in order of
      first occurrence, at most five. */
  function CategoryTags(es: seq<Element>): (r: seq<string>)
    ensures |r| <= 5 && Distinct(r)
    ensures forall c :: c in r ==> exists i :: 0 <= i < |es| && es[i].category == c
    ensures var u := Unique(seq(|es|, i requires 0 <= i < |es| => es[i].category));
      |r| == (if |u| < 5 then |u| else 5) && r == u[..|r|]
  {
    var cs := seq(|es|, i requires 0 <= i < |es| => es[i].category);
    var u := Unique(cs);
    var r := if |u| <= 5 then u else u[..5];
    assert forall c :: c in r ==> c in cs;
    r
  }

  /** A suggestion as the page keeps it. */
  datatype Suggestion = Suggestion(jobId: string, matchScore: int, elements: seq<Element>)

  /** The page state touched by selection and saving. */
  class Page {
    var participants: seq<ParticipantPreview>
    var selected: Option<ParticipantPreview>
    var suggestions: seq<Suggestion>
    var savingJobs: map<string, bool>

    constructor()
      ensures participants == [] && selected == None && suggestions == [] && savingJobs == map[]
    {
      participants := [];
      selected := None;
      suggestions := [];
      savingJobs := map[];
    }

    method ParticipantsLoaded(ps: seq<ParticipantPreview>)
      modifies this`participants
      ensures participants == ps
    {
      participants := ps;
    }

    /** Choosing a participant: an empty selection or an unknown id changes
      nothing; a known one becomes the selection and the old suggestions are
      cleared before new ones are fetched. */
    method ParticipantSelect(selectedOptions: seq<string>)
      modifies this`selected, this`suggestions
      ensures |selectedOptions| == 0 ==> selected == old(selected) && suggestions == old(suggestions)
      ensures |selectedOptions| > 0 && FindById(participants, selectedOptions[0]).None? ==>
        selected == old(selected) && suggestions == old(suggestions)
      ensures |selectedOptions| > 0 && FindById(participants, selectedOptions[0]).Some? ==>
        selected == FindById(participants, selectedOptions[0]) && suggestions == []
      ensures selected.Some? && selected != old(selected) ==> selected.value in participants
    {
      if |selectedOptions| == 0 {
        return;
      }
      var found := FindById(participants, selectedOptions[0]);
      if found.Some? {
        selected := found;
        suggestions := [];
      }
    }

    /** The fetched suggestions arrived. */
    method SuggestionsArrived(s: seq<Suggestion>)
      modifies this`suggestions
      ensures suggestions == s
    {
      suggestions := s;
    }

    /** Creating a match for a job: nothing without a selected participant;
      otherwise the job is flagged as saving, and the flag is set back to
      false when the request fails (on success the page navigates away with
      the flag still set). No other job's flag changes. */
    method CreateJobMatch(jobId: string, requestSucceeds: bool)
      modifies this`savingJobs
      ensures selected.None? ==> savingJobs == old(savingJobs)
      ensures selected.Some? ==> savingJobs == old(savingJobs)[jobId := requestSucceeds]
      ensures forall j :: j != jobId ==> (j in savingJobs <==> j in old(savingJobs))
      ensures forall j :: j != jobId && j in savingJobs ==> savingJobs[j] == old(savingJobs)[j]
    {
      if selected.None? {
        return;
      }
      ghost var before := savingJobs;
      savingJobs := savingJobs[jobId := true];
      if !requestSucceeds {
        savingJobs := savingJobs[jobId := false];
        assert savingJobs == before[jobId := false];
      }
    }
  }
}
