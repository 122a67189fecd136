/** The participant registration page: text fields, five tag lists with
    their pending inputs, per-field error messages, validation and the
    participant document the page submits. */
module ParticipantForm {
  import opened Wrappers
  import opened Strings
  import opened Json
  import opened Tags

  datatype TagKind = Accommodations | TechnicalSkills | SoftSkills | PreferredLocations | PreferredIndustries

  /** The text fields of the form, `currentStatus` included. */
  const TextFields: seq<string> := [
    "firstName", "lastName", "email", "phone", "dateOfBirth", "gender",
    "primaryLanguage", "disabilityType", "transportationStatus",
    "currentStatus", "employmentGoal", "desiredHours"]

  /** The required fields with the label their message uses. */
  const Required: seq<(string, string)> := [
    ("firstName", "First name"), ("lastName", "Last name"), ("email", "Email"),
    ("phone", "Phone"), ("dateOfBirth", "Date of birth"), ("gender", "Gender"),
    ("primaryLanguage", "Primary language"), ("disabilityType", "Disability type"),
    ("transportationStatus", "Transportation status"),
    ("employmentGoal", "Employment goal"), ("desiredHours", "Desired hours")]

  const InvalidEmail := "Please enter a valid email"

  function RequiredMessage(caption: string): string
  {
    caption + " is required"
  }

  lemma RequiredAreTextFields()
    ensures forall k :: 0 <= k < |Required| ==> Required[k].0 in TextFields
    ensures forall a, b :: 0 <= a < b < |Required| ==> Required[a].0 != Required[b].0
  {
  }

  /** One "<label> is required" message per listed field left empty. */
  method MissingRequired(fields: map<string, string>, required: seq<(string, string)>)
    returns (found: map<string, string>)
    requires forall k :: 0 <= k < |required| ==> required[k].0 in fields
    requires forall a, b :: 0 <= a < b < |required| ==> required[a].0 != required[b].0
    ensures forall f :: f in found ==> exists k :: 0 <= k < |required| && required[k].0 == f
    ensures forall k :: 0 <= k < |required| ==>
      (fields[required[k].0] == "" <==> required[k].0 in found) &&
      (required[k].0 in found ==> found[required[k].0] == RequiredMessage(required[k].1))
  {
    found := map[];
    var i := 0;
    while i < |required|
      invariant 0 <= i <= |required|
      invariant forall f :: f in found ==> exists k :: 0 <= k < i && required[k].0 == f
      invariant forall k :: 0 <= k < i ==>
        (fields[required[k].0] == "" <==> required[k].0 in found) &&
        (required[k].0 in found ==> found[required[k].0] == RequiredMessage(required[k].1))
    {
      var (field, caption) := required[i];
      if fields[field] == "" {
        found := found[field := RequiredMessage(caption)];
      }
      i := i + 1;
    }
  }

  predicate IsRequired(f: string)
  {
    exists i :: 0 <= i < |Required| && Required[i].0 == f
  }

  /** Every required field has a value and the e-mail has the right shape. */
  predicate Complete(fields: map<string, string>)
  {
    (forall i :: 0 <= i < |Required| ==> Required[i].0 in fields && fields[Required[i].0] != "") &&
    "email" in fields && IsValidEmail(fields["email"])
  }

  function TagField(k: TagKind): string
  {
    match k
    case Accommodations => "accommodationsNeeded"
    case TechnicalSkills => "technical"
    case SoftSkills => "soft"
    case PreferredLocations => "preferredLocations"
    case PreferredIndustries => "preferredIndustries"
  }

  class Form {
    var fields: map<string, string>
    var tags: map<TagKind, seq<string>>
    var tagInputs: map<TagKind, string>
    var errors: map<string, string>

    ghost predicate Valid()
      reads this
    {
      (forall f :: f in TextFields ==> f in fields) &&
      (forall k: TagKind :: k in tags && k in tagInputs)
    }

    /** The empty form: blank fields, status "seeking", no tags, no errors. */
    constructor()
      ensures Valid()
      ensures forall i :: 0 <= i < |TextFields| && TextFields[i] != "currentStatus" ==> fields[TextFields[i]] == ""
      ensures fields["currentStatus"] == "seeking"
      ensures forall k: TagKind :: tags[k] == [] && tagInputs[k] == ""
      ensures errors == map[]
    {
      fields := map f | f in TextFields :: if f == "currentStatus" then "seeking" else "";
      tags := map[Accommodations := [], TechnicalSkills := [], SoftSkills := [],
                  PreferredLocations := [], PreferredIndustries := []];
      tagInputs := map[Accommodations := "", TechnicalSkills := "", SoftSkills := "",
                       PreferredLocations := "", PreferredIndustries := ""];
      errors := map[];
      new;
      forall k: TagKind ensures k in tags && k in tagInputs {
        match k
        case Accommodations =>
        case TechnicalSkills =>
        case SoftSkills =>
        case PreferredLocations =>
        case PreferredIndustries =>
      }
    }

    /** A text field changed; a message shown for it is cleared. */
    method InputChanged(name: string, value: string)
      requires Valid() && name in TextFields
      modifies this`fields, this`errors
      ensures Valid() && fields == old(fields)[name := value]
      ensures name in old(errors) && old(errors)[name] != "" ==> errors == old(errors)[name := ""]
      ensures !(name in old(errors) && old(errors)[name] != "") ==> errors == old(errors)
    {
      fields := fields[name := value];
      if name in errors && errors[name] != "" {
        errors := errors[name := ""];
      }
    }

    /** A combobox selection: nothing happens without a selected option;
      otherwise the field takes the first one and its message is cleared. */
    method ComboboxChanged(field: string, selected: seq<string>)
      requires Valid()
      modifies this`fields, this`errors
      ensures Valid()
      ensures |selected| == 0 ==> fields == old(fields) && errors == old(errors)
      ensures |selected| > 0 ==> fields == old(fields)[field := selected[0]]
      ensures |selected| > 0 && field in old(errors) && old(errors)[field] != "" ==>
        errors == old(errors)[field := ""]
      ensures !(|selected| > 0 && field in old(errors) && old(errors)[field] != "") ==> errors == old(errors)
    {
      if |selected| > 0 {
        fields := fields[field := selected[0]];
        if field in errors && errors[field] != "" {
          errors := errors[field := ""];
        }
      }
    }

    /** The employment-status radio group. */
    method StatusChanged(value: string)
      requires Valid()
      modifies this`fields
      ensures Valid() && fields == old(fields)["currentStatus" := value]
    {
      fields := fields["currentStatus" := value];
    }

    method TagInputChanged(kind: TagKind, text: string)
      requires Valid()
      modifies this`tagInputs
      ensures Valid() && tagInputs == old(tagInputs)[kind := text]
    {
      tagInputs := tagInputs[kind := text];
    }

    /** The pending text, trimmed, joins its list unless it is empty or
      already there; the pending input is cleared either way unless the
      trimmed text was empty. */
    method AddTag(kind: TagKind)
      requires Valid()
      modifies this`tags, this`tagInputs
      ensures Valid()
      ensures var value := Trim(old(tagInputs[kind]));
        if value == "" then tags == old(tags) && tagInputs == old(tagInputs)
        else tags == old(tags)[kind := WithTag(old(tags[kind]), value)] && tagInputs == old(tagInputs)[kind := ""]
    {
      var value := Trim(tagInputs[kind]);
      if value != "" {
        tags := tags[kind := WithTag(tags[kind], value)];
        tagInputs := tagInputs[kind := ""];
      }
    }

    method RemoveTag(kind: TagKind, tag: string)
      requires Valid()
      modifies this`tags
      ensures Valid() && tags == old(tags)[kind := WithoutTag(old(tags[kind]), tag)]
    {
      tags := tags[kind := WithoutTag(tags[kind], tag)];
    }

    /** Replaces the messages: "<label> is required" for each empty required
      field, and the invalid-email message for a non-empty e-mail of the
      wrong shape. The form is valid iff no message was produced. */
    method ValidateForm() returns (ok: bool)
      requires Valid()
      modifies this`errors
      ensures forall f :: f in errors ==> IsRequired(f)
      ensures forall i :: 0 <= i < |Required| && Required[i].0 != "email" ==>
        (fields[Required[i].0] == "" <==> Required[i].0 in errors) &&
        (Required[i].0 in errors ==> errors[Required[i].0] == RequiredMessage(Required[i].1))
      ensures fields["email"] == "" ==> "email" in errors && errors["email"] == RequiredMessage("Email")
      ensures fields["email"] != "" && !IsValidEmail(fields["email"]) ==>
        "email" in errors && errors["email"] == InvalidEmail
      ensures fields["email"] != "" && IsValidEmail(fields["email"]) ==> "email" !in errors
      ensures ok <==> errors == map[]
      ensures ok <==> Complete(fields)
    {
      RequiredAreTextFields();
      var found := MissingRequired(fields, Required);
      assert Required[2].0 == "email";
      var email := fields["email"];
      if email != "" && !IsValidEmail(email) {
        found := found["email" := InvalidEmail];
      }
      errors := found;
      ok := |found| == 0;
      assert ok ==> found == map[];
    }

    /** The document submitted: every form field, the tag lists (skills as
      `{technical, soft}`), the full name "<first> <last>" and empty work
      history, goals and job matches. */
    function Draft(): (d: Document)
      requires Valid()
      reads this
      ensures forall i :: 0 <= i < |TextFields| ==> TextFields[i] in d
      ensures "fullName" in d && "workHistory" in d && "goals" in d && "jobMatches" in d
      ensures d["fullName"] == JStr(fields["firstName"] + " " + fields["lastName"])
      ensures d["workHistory"] == JList([]) && d["goals"] == JList([]) && d["jobMatches"] == JList([])
    {
      var scalars := map f | f in fields :: JStr(fields[f]);
      var lists := map[
        "accommodationsNeeded" := JList(StrList(tags[Accommodations])),
        "skills" := JObj(map[
          "technical" := JList(StrList(tags[TechnicalSkills])),
          "soft" := JList(StrList(tags[SoftSkills]))]),
        "preferredLocations" := JList(StrList(tags[PreferredLocations])),
        "preferredIndustries" := JList(StrList(tags[PreferredIndustries]))];
      scalars + lists + map[
        "fullName" := JStr(fields["firstName"] + " " + fields["lastName"]),
        "workHistory" := JList([]),
        "goals" := JList([]),
        "jobMatches" := JList([])]
    }

    /** Submitting validates first; only a valid form yields a document. */
    method Submit() returns (d: Option<Document>)
      requires Valid()
      modifies this`errors
      ensures d.Some? <==> Complete(fields)
      ensures d.Some? ==> d.value == Draft()
    {
      var ok := ValidateForm();
      if ok {
        d := Some(Draft());
      } else {
        d := None;
      }
    }
  }
}
