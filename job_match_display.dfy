/** Display labels of job-match statuses and sources, their lookup and the
    options the status and source drop-downs offer. */
module JobMatchDisplay {
  import opened Wrappers
  import opened Tables

  datatype MappedField = Status | Source

  /** One drop-down option. */
  datatype DisplayOption = DisplayOption(value: string, text: string)

  /** The two mappings, entries in declaration order. */
  const StatusLabels: seq<(string, string)> := [
    ("considering", "Considering"), ("suggested", "Suggested"), ("applied", "Applied"),
    ("interviewing", "Interviewing"), ("offered", "Offered"), ("accepted", "Accepted"),
    ("rejected", "Rejected"), ("not-suitable", "Not Suitable")]

  const SourceLabels: seq<(string, string)> := [
    ("system-generated", "AI Suggested"), ("coach-assigned", "Coach Assigned"),
    ("participant-found", "Participant Found")]

  function Mapping(field: MappedField): (t: seq<(string, string)>)
    ensures DistinctKeys(t)
    ensures forall i :: 0 <= i < |t| ==> t[i].0 != ""
  {
    match field
    case Status => StatusLabels
    case Source => SourceLabels
  }

  /** The label of a value the field's mapping owns; "" for ""; any other
      value unchanged. */
  function DisplayValue(field: MappedField, value: string): (r: string)
    ensures value == "" ==> r == ""
    ensures value != "" && (forall i :: 0 <= i < |Mapping(field)| ==> Mapping(field)[i].0 != value) ==>
      r == value
    ensures value != "" && Lookup(Mapping(field), value).Some? ==>
      r == Lookup(Mapping(field), value).value
  {
    if value == "" then ""
    else
      match Lookup(Mapping(field), value)
      case Some(text) => text
      case None => value
  }

  /** One option per mapping entry, in declaration order. */
  function Options(field: MappedField): (r: seq<DisplayOption>)
    ensures |r| == |Mapping(field)|
    ensures forall i :: 0 <= i < |r| ==> r[i] == DisplayOption(Mapping(field)[i].0, Mapping(field)[i].1)
  {
    var t := Mapping(field);
    seq(|t|, i requires 0 <= i < |t| => DisplayOption(t[i].0, t[i].1))
  }

  /** Every option displays as its own text. */
  lemma OptionsDisplayTheirText(field: MappedField)
    ensures forall o :: o in Options(field) ==> DisplayValue(field, o.value) == o.text
  {
    var t := Mapping(field);
    forall o | o in Options(field) ensures DisplayValue(field, o.value) == o.text {
      var i :| 0 <= i < |Options(field)| && Options(field)[i] == o;
      LookupEntry(t, i);
    }
  }

  /** Eight status options and three source options. */
  lemma OptionCounts()
    ensures |Options(Status)| == 8 && |Options(Source)| == 3
  {
  }

  /** The labels that differ from a capitalised key. */
  lemma SpecialLabels()
    ensures DisplayValue(Status, "not-suitable") == "Not Suitable"
    ensures DisplayValue(Source, "system-generated") == "AI Suggested"
  {
    var s, k := StatusLabels[7], SourceLabels[0];
    assert s == ("not-suitable", "Not Suitable") && k == ("system-generated", "AI Suggested");
    LookupEntry(Mapping(Status), 7);
    LookupEntry(Mapping(Source), 0);
  }
}
