/** The new-session page: text fields, the participant picker, the date
    input, two tag lists (topics and goals) with their pending inputs,
    validation and the session document the page submits. */
module SessionForm {
  import opened Wrappers
  import opened Strings
  import opened Json
  import opened Tags
  import opened Previews
  import DateFilter

  datatype SessionTag = Topics | Goals

  /** The text fields of the form state. */
  const TextFields: seq<string> := [
    "title", "participantId", "participantName", "startTime", "endTime",
    "status", "type", "location", "notes"]

  /** The checks `validateForm` makes, in order: the error key and its message.
      The `date` check reads the date input's text. */
  const Checks: seq<(string, string)> := [
    ("title", "Title is required"),
    ("participantId", "Participant selection is required"),
    ("date", "Date is required"),
    ("startTime", "Start time is required"),
    ("endTime", "End time is required"),
    ("type", "Session type is required"),
    ("location", "Location is required")]

  const CoachId := "coach-123"
  /** The mock coach name exactly as the page's text holds it. */
  const CoachName := "Maria Gonz\U{221A}\U{00B0}lez"

  /** The `fullName` of the first participant with the id, or "" when none
      has it. */
  function NameFor(ps: seq<ParticipantPreview>, id: string): (r: string)
    ensures (forall i :: 0 <= i < |ps| ==> ps[i].id != id) ==> r == ""
    ensures forall i :: (0 <= i < |ps| && ps[i].id == id &&
      (forall j :: 0 <= j < i ==> ps[j].id != id)) ==> r == ps[i].fullName
  {
    match FindById(ps, id)
    case Some(p) => p.fullName
    case None => ""
  }

  /** The initial date input text: `String(year)`, then month and day padded
      to two digits. */
  function InitialDateInput(today: DateFilter.CalendarDate): string
    requires DateFilter.Valid(today)
  {
    NatToString(today.year) + "-" + DateFilter.FixedDigits(today.month, 2) + "-" +
    DateFilter.FixedDigits(today.day, 2)
  }

  /** For four-digit years the initial text is today's ISO date, a value
      the date input accepts. */
  lemma InitialDateInputIsIso(today: DateFilter.CalendarDate)
    requires DateFilter.Valid(today) && 1000 <= today.year
    ensures InitialDateInput(today) == DateFilter.IsoText(today)
    ensures DateFilter.IsIsoDateText(InitialDateInput(today))
  {
    DateFilter.NatToStringFixed(today.year, 4);
    DateFilter.ParseOfIsoText(today);
  }

  // ---------------------------------------------------------------------
  // The stored date-time text

  predicate IsClockText(t: string)
  {
    |t| == 5 && t[2] == ':' && AllDigits(t[..2]) && AllDigits(t[3..])
  }

  /** `<YYYY-MM-DD>T<HH:MM>:00Z`. */
  function DateTimeText(date: string, time: string): string
  {
    date + "T" + time + ":00Z"
  }

  /** ISO 8601 combined date and time in UTC with seconds. */
  predicate IsIsoDateTime(r: string)
  {
    |r| == 20 && DateFilter.IsIsoDateText(r[..10]) && r[10] == 'T' &&
    IsClockText(r[11..16]) && r[16..] == ":00Z"
  }

  /** A date input value and a time input value make an ISO 8601 date-time,
      from which both can be read back. */
  lemma DateTimeTextRoundTrip(date: string, time: string)
    requires DateFilter.IsIsoDateText(date) && IsClockText(time)
    ensures IsIsoDateTime(DateTimeText(date, time))
    ensures DateTimeText(date, time)[..10] == date
    ensures DateTimeText(date, time)[11..16] == time
  {
    var r := DateTimeText(date, time);
    assert r[..10] == date;
    assert r[11..16] == time;
    assert r[16..] == ":00Z";
  }

  // ---------------------------------------------------------------------
  // The page state

  class Form {
    var fields: map<string, string>
    var tags: map<SessionTag, seq<string>>
    var tagInputs: map<SessionTag, string>
    var dateInput: string
    var errors: map<string, string>
    var participants: seq<ParticipantPreview>

    ghost predicate Valid()
      reads this
    {
      (forall f :: f in TextFields ==> f in fields) &&
      Topics in tags && Goals in tags && Topics in tagInputs && Goals in tagInputs
    }

    /** The empty form: blank fields, status "scheduled", no tags, today's
      date in the date input, no participants loaded yet. */
    constructor(today: DateFilter.CalendarDate)
      requires DateFilter.Valid(today)
      ensures Valid()
      ensures forall f :: f in TextFields && f != "status" ==> fields[f] == ""
      ensures fields["status"] == "scheduled"
      ensures tags == map[Topics := [], Goals := []]
      ensures tagInputs == map[Topics := "", Goals := ""]
      ensures dateInput == InitialDateInput(today)
      ensures errors == map[] && participants == []
    {
      fields := map f | f in TextFields :: if f == "status" then "scheduled" else "";
      tags := map[Topics := [], Goals := []];
      tagInputs := map[Topics := "", Goals := ""];
      dateInput := InitialDateInput(today);
      errors := map[];
      participants := [];
    }

    /** The participant list arrived. */
    method ParticipantsLoaded(ps: seq<ParticipantPreview>)
      modifies this`participants
      ensures participants == ps
    {
      participants := ps;
    }

    /** A text field changed; a message shown for it is cleared. */
    method InputChanged(name: string, value: string)
      requires Valid() && name in TextFields
      modifies this`fields, this`errors
      ensures Valid() && fields == old(fields)[name := value]
      ensures name in old(errors) && old(errors)[name] != "" ==> errors == old(errors)[name := ""]
      ensures !(name in old(errors) && old(errors)[name] != "") ==> errors == old(errors)
    {
      fields := fields[name := value];
      if name in errors && errors[name] != "" {
        errors := errors[name := ""];
      }
    }

    /** A combobox selection. Nothing happens without a selected option.
      Picking a participant sets the id and the name of the first loaded
      participant with that id ("" when none has it); any other field takes
      the option. A message shown for the field is cleared. */
    method ComboboxChanged(field: string, selected: seq<string>)
      requires Valid()
      modifies this`fields, this`errors
      ensures Valid()
      ensures |selected| == 0 ==> fields == old(fields) && errors == old(errors)
      ensures |selected| > 0 && field == "participantId" ==>
        fields == old(fields)["participantId" := selected[0]]
                             ["participantName" := NameFor(participants, selected[0])]
      ensures |selected| > 0 && field != "participantId" ==> fields == old(fields)[field := selected[0]]
      ensures |selected| > 0 && field in old(errors) && old(errors)[field] != "" ==>
        errors == old(errors)[field := ""]
      ensures !(|selected| > 0 && field in old(errors) && old(errors)[field] != "") ==> errors == old(errors)
    {
      if |selected| == 0 {
        return;
      }
      var value := selected[0];
      if field == "participantId" {
        fields := fields["participantId" := value]["participantName" := NameFor(participants, value)];
      } else {
        fields := fields[field := value];
      }
      if field in errors && errors[field] != "" {
        errors := errors[field := ""];
      }
    }

    /** The date input changed: its text is kept, and a non-empty value
      clears the date message. */
    method DateChanged(value: string)
      modifies this`dateInput, this`errors
      ensures dateInput == value
      ensures value != "" && "date" in old(errors) && old(errors)["date"] != "" ==>
        errors == old(errors)["date" := ""]
      ensures !(value != "" && "date" in old(errors) && old(errors)["date"] != "") ==> errors == old(errors)
    {
      dateInput := value;
      if value != "" && "date" in errors && errors["date"] != "" {
        errors := errors["date" := ""];
      }
    }

    method TagInputChanged(kind: SessionTag, text: string)
      requires Valid()
      modifies this`tagInputs
      ensures Valid() && tagInputs == old(tagInputs)[kind := text]
    {
      tagInputs := tagInputs[kind := text];
    }

    /** The pending text, trimmed, joins its list only when it is non-empty
      and not already there, and only then is the pending input cleared: a
      duplicate stays in the input box. */
    method AddTag(kind: SessionTag)
      requires Valid()
      modifies this`tags, this`tagInputs
      ensures Valid()
      ensures var v := Trim(old(tagInputs[kind]));
        if v != "" && v !in old(tags[kind]) then
          tags == old(tags)[kind := old(tags[kind]) + [v]] && tagInputs == old(tagInputs)[kind := ""]
        else
          tags == old(tags) && tagInputs == old(tagInputs)
      ensures Trim(old(tagInputs[kind])) != "" ==>
        tags == old(tags)[kind := WithTag(old(tags[kind]), Trim(old(tagInputs[kind])))]
    {
      var value := Trim(tagInputs[kind]);
      if value != "" && value !in tags[kind] {
        tags := tags[kind := tags[kind] + [value]];
        tagInputs := tagInputs[kind := ""];
      }
    }

    /** Every copy of the tag leaves the named list; the other list stays. */
    method RemoveTag(kind: SessionTag, tag: string)
      requires Valid()
      modifies this`tags
      ensures Valid() && tags == old(tags)[kind := WithoutTag(old(tags[kind]), tag)]
    {
      tags := tags[kind := WithoutTag(tags[kind], tag)];
    }

    /** The text a check reads: the date input for `date`, else the field. */
    function CheckedValue(key: string): string
      requires Valid() && (key == "date" || key in TextFields)
      reads this
    {
      if key == "date" then dateInput else fields[key]
    }

    /** Every checked value is non-empty. The end time is not compared with
      the start time. */
    predicate Complete()
      requires Valid()
      reads this
    {
      forall i :: 0 <= i < |Checks| ==> CheckedValue(Checks[i].0) != ""
    }

    /** Replaces the messages with one per empty checked value, the seven
      checks taken in order; the form is valid iff none was produced. */
    method ValidateForm() returns (ok: bool)
      requires Valid()
      modifies this`errors
      ensures forall k :: k in errors ==> exists i :: 0 <= i < |Checks| && Checks[i].0 == k
      ensures forall i :: 0 <= i < |Checks| ==>
        (Checks[i].0 in errors <==> CheckedValue(Checks[i].0) == "") &&
        (Checks[i].0 in errors ==> errors[Checks[i].0] == Checks[i].1)
      ensures ok <==> errors == map[]
      ensures ok <==> Complete()
    {
      var found: map<string, string> := map[];
      var i := 0;
      while i < |Checks|
        invariant 0 <= i <= |Checks|
        invariant forall k :: k in found ==> exists j :: 0 <= j < i && Checks[j].0 == k
        invariant forall j :: 0 <= j < i ==>
          (Checks[j].0 in found <==> CheckedValue(Checks[j].0) == "") &&
          (Checks[j].0 in found ==> found[Checks[j].0] == Checks[j].1)
      {
        var (key, message) := Checks[i];
        if CheckedValue(key) == "" {
          found := found[key := message];
        }
        i := i + 1;
      }
      errors := found;
      ok := |found| == 0;
    }

    /** The session document submitted: the form's fields, the mock coach,
      the date-time text, the tag lists and empty AI suggestions. */
    function Draft(): (d: Document)
      requires Valid()
      reads this
      ensures forall i :: 0 <= i < |TextFields| ==> TextFields[i] in d
      ensures "date" in d && d["date"] == JStr(DateTimeText(dateInput, fields["startTime"]))
      ensures "status" in d && d["status"] == JStr(fields["status"])
      ensures "aiSuggestions" in d && d["aiSuggestions"] == EmptySuggestions()
    {
      map[
        "title" := JStr(fields["title"]),
        "coachId" := JStr(CoachId),
        "coachName" := JStr(CoachName),
        "participantId" := JStr(fields["participantId"]),
        "participantName" := JStr(fields["participantName"]),
        "date" := JStr(DateTimeText(dateInput, fields["startTime"])),
        "startTime" := JStr(fields["startTime"]),
        "endTime" := JStr(fields["endTime"]),
        "status" := JStr(fields["status"]),
        "type" := JStr(fields["type"]),
        "location" := JStr(fields["location"]),
        "notes" := JStr(fields["notes"]),
        "topics" := JList(StrList(tags[Topics])),
        "goals" := JList(StrList(tags[Goals])),
        "aiSuggestions" := EmptySuggestions()]
    }

    /** Submitting validates first; only a valid form yields a document. */
    method Submit() returns (d: Option<Document>)
      requires Valid()
      modifies this`errors
      ensures d.Some? <==> Complete()
      ensures d.Some? ==> d.value == Draft()
    {
      var ok := ValidateForm();
      if ok {
        d := Some(Draft());
      } else {
        d := None;
      }
    }
  }

  /** The AI suggestions a new session starts with: no topics, no sentiment
      sentences, no job recommendations and an empty summary. */
  function EmptySuggestions(): Json
  {
    JObj(map[
      "recommendedTopics" := JList([]),
      "sentimentAnalysis" := JObj(map["positive" := JList([]), "negative" := JList([])]),
      "jobRecommendations" := JList([]),
      "summary" := JStr("")])
  }
}
