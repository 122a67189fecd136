/** The jobs, participants and sessions list pages. Each keeps the fetched
    rows, a search text, combobox filters ("all" meaning no constraint), a
    sort configuration that cycles ascending, descending, unsorted, and the
    rows it shows: the fetched rows that match the search, stably sorted by
    the chosen column. The three pages differ only in the data a `PageConfig`
    holds. */
module ListView {
  import opened Wrappers
  import opened Strings
  import opened Sorting
  import opened DateFilter

  /** A row attribute as JavaScript sees it. */
  datatype Cell = Absent | Null | Text(s: string) | Num(n: int) | Flag(b: bool)

  type Row = map<string, Cell>

  function CellOf(r: Row, key: string): Cell
  {
    if key in r then r[key] else Absent
  }

  /** JavaScript's `String(v)`. */
  function CellString(c: Cell): string
  {
    match c
    case Absent => "undefined"
    case Null => "null"
    case Text(s) => s
    case Num(n) => IntToString(n)
    case Flag(b) => if b then "true" else "false"
  }

  predicate Falsy(c: Cell)
  {
    c.Absent? || c.Null? || c == Text("") || c == Num(0) || c == Flag(false)
  }

  /** JavaScript's `String(v || "")`. */
  function CellStringOrEmpty(c: Cell): (r: string)
    ensures Falsy(c) ==> r == ""
    ensures !Falsy(c) ==> r == CellString(c)
  {
    if Falsy(c) then "" else CellString(c)
  }

  datatype Direction = Asc | Desc | Unsorted

  datatype SortConfig = SortConfig(key: string, direction: Direction)

  datatype PageConfig = PageConfig(
    filterNames: seq<string>,
    searchFields: seq<string>,
    timeKeys: set<string>,
    numberKeys: set<string>,
    falsyAsEmpty: bool,
    hasDateFilter: bool,
    defaultSort: SortConfig)

  /** Jobs: filters on status and employment type; searches title, company,
      location and description; `postedDate` sorts by time, `salary` by
      number, other columns by `String(v || "")`; newest first. */
  const JobsPage := PageConfig(
    ["status", "employmentType"],
    ["title", "companyName", "location", "description"],
    {"postedDate"}, {"salary"}, true, false,
    SortConfig("postedDate", Desc))

  /** Participants: filters on status and disability type; searches name,
      email and employment goal; every column sorts by `String(v)`; by name. */
  const ParticipantsPage := PageConfig(
    ["status", "disabilityType"],
    ["fullName", "email", "employmentGoal"],
    {}, {}, false, false,
    SortConfig("fullName", Asc))

  /** Sessions: filters on status, type and a date; searches title,
      participant name and location; `date` sorts by time, other columns by
      `String(v)`; newest first. */
  const SessionsPage := PageConfig(
    ["status", "type"],
    ["title", "participantName", "location"],
    {"date"}, {}, false, true,
    SortConfig("date", Desc))

  // ---------------------------------------------------------------------
  // Sort configuration

  /** `handleSort`: a new column starts ascending; clicking the current
      column again goes ascending, descending, unsorted, ascending. */
  function NextSort(current: SortConfig, key: string): (r: SortConfig)
    ensures r.key == key
    ensures current.key != key ==> r.direction == Asc
  {
    if current.key != key then SortConfig(key, Asc)
    else match current.direction
      case Asc => SortConfig(key, Desc)
      case Desc => SortConfig(key, Unsorted)
      case Unsorted => SortConfig(key, Asc)
  }

  /** Clicking the same column three times comes back to where it started,
      passing through all three directions. */
  lemma NextSortCycles(current: SortConfig)
    ensures var s1 := NextSort(current, current.key);
            var s2 := NextSort(s1, current.key);
            NextSort(s2, current.key) == current &&
            {s1.direction, s2.direction, current.direction} == {Asc, Desc, Unsorted}
  {
  }

  datatype SortIcon = Neutral | Up | Down

  /** `getSortIcon`: the arrow shows on the sorted column only. */
  function IconFor(current: SortConfig, key: string): (r: SortIcon)
    ensures r == Up <==> (current.key == key && current.direction == Asc)
    ensures r == Down <==> (current.key == key && current.direction == Desc)
  {
    if current.key != key then Neutral
    else match current.direction
      case Asc => Up
      case Desc => Down
      case Unsorted => Neutral
  }

  // ---------------------------------------------------------------------
  // Search

  function TextOf(c: Cell): string
  {
    if c.Text? then c.s else ""
  }

  /** Some search field, lowered, contains the lowered search text. */
  predicate Matches(fields: seq<string>, r: Row, needle: string)
  {
    exists i :: 0 <= i < |fields| && Contains(Lower(TextOf(CellOf(r, fields[i]))), needle)
  }

  function MatchingRows(fields: seq<string>, rows: seq<Row>, needle: string): (r: seq<Row>)
    ensures |r| <= |rows|
    ensures forall x :: x in r <==> x in rows && Matches(fields, x, needle)
    decreases |rows|
  {
    if |rows| == 0 then []
    else
      var init := MatchingRows(fields, rows[..|rows| - 1], needle);
      var last := rows[|rows| - 1];
      assert rows == rows[..|rows| - 1] + [last];
      if Matches(fields, last, needle) then init + [last] else init
  }

  /** The search step: everything when the search text is empty, otherwise
      the rows with a matching search field, in their original order. */
  function Search(cfg: PageConfig, rows: seq<Row>, text: string): seq<Row>
  {
    if text == "" then rows else MatchingRows(cfg.searchFields, rows, Lower(text))
  }

  /** Matching rows keep their multiplicity and their relative order: the
      result is the subsequence of the input that matches. */
  lemma {:induction false} MatchingRowsIsSubsequence(fields: seq<string>, rows: seq<Row>, needle: string)
    ensures multiset(MatchingRows(fields, rows, needle)) <= multiset(rows)
    ensures forall x :: x in rows && Matches(fields, x, needle) ==>
      multiset(MatchingRows(fields, rows, needle))[x] == multiset(rows)[x]
    decreases |rows|
  {
    if |rows| > 0 {
      var init := rows[..|rows| - 1];
      MatchingRowsIsSubsequence(fields, init, needle);
      assert rows == init + [rows[|rows| - 1]];
    }
  }

  // ---------------------------------------------------------------------
  // Comparators

  function TimeOf(parse: string -> int, c: Cell): int
  {
    if c.Text? then parse(c.s) else 0
  }

  function NumOf(c: Cell): int
  {
    if c.Num? then c.n else 0
  }

  function KeyText(cfg: PageConfig, c: Cell): string
  {
    if cfg.falsyAsEmpty then CellStringOrEmpty(c) else CellString(c)
  }

  /** The page's comparator for column `key`, ascending when `asc`; times are
      turned into milliseconds by `parse`. */
  function CompareRows(cfg: PageConfig, parse: string -> int, key: string, asc: bool, a: Row, b: Row): int
  {
    if key in cfg.timeKeys then
      var d := TimeOf(parse, CellOf(a, key)) - TimeOf(parse, CellOf(b, key));
      if asc then d else -d
    else if key in cfg.numberKeys then
      var d := NumOf(CellOf(a, key)) - NumOf(CellOf(b, key));
      if asc then d else -d
    else
      var x := KeyText(cfg, CellOf(a, key));
      var y := KeyText(cfg, CellOf(b, key));
      if Less(x, y) then (if asc then -1 else 1)
      else if Less(y, x) then (if asc then 1 else -1)
      else 0
  }

  function Comparator(cfg: PageConfig, parse: string -> int, sort: SortConfig): (Row, Row) -> int
  {
    (a: Row, b: Row) => CompareRows(cfg, parse, sort.key, sort.direction == Asc, a, b)
  }

  /** Descending order is ascending order reversed, for every kind of column. */
  lemma DescendingFlipsAscending(cfg: PageConfig, parse: string -> int, key: string, a: Row, b: Row)
    ensures CompareRows(cfg, parse, key, false, a, b) == -CompareRows(cfg, parse, key, true, a, b)
    ensures CompareRows(cfg, parse, key, true, a, b) == -CompareRows(cfg, parse, key, true, b, a)
  {
    if key !in cfg.timeKeys && key !in cfg.numberKeys {
      var x := KeyText(cfg, CellOf(a, key));
      var y := KeyText(cfg, CellOf(b, key));
      if Less(x, y) {
        LessAsymmetric(x, y);
      }
    }
  }

  lemma StringColumnTransitive(x: string, y: string, z: string)
    requires !Less(y, x) && !Less(z, y)
    ensures !Less(z, x)
  {
    LessTotal(x, y);
    LessTotal(y, z);
    if Less(z, x) {
      if x == y {
        LessAsymmetric(z, y);
      } else if y == z {
        LessAsymmetric(y, x);
      } else {
        LessTransitive(x, y, z);
        LessAsymmetric(z, x);
      }
    }
  }

  /** Every column comparator of every page is a consistent comparator, so
      the stable sort's guarantees apply to it. */
  lemma ComparatorIsConsistent(cfg: PageConfig, parse: string -> int, sort: SortConfig)
    ensures IsComparator(Comparator(cfg, parse, sort))
  {
    var cmp := Comparator(cfg, parse, sort);
    var key, asc := sort.key, sort.direction == Asc;
    forall a, b ensures Sign(cmp(a, b)) == -Sign(cmp(b, a)) {
      DescendingFlipsAscending(cfg, parse, key, a, b);
      DescendingFlipsAscending(cfg, parse, key, b, a);
    }
    forall a, b, c | cmp(a, b) <= 0 && cmp(b, c) <= 0 ensures cmp(a, c) <= 0 {
      if key !in cfg.timeKeys && key !in cfg.numberKeys {
        var x := KeyText(cfg, CellOf(a, key));
        var y := KeyText(cfg, CellOf(b, key));
        var z := KeyText(cfg, CellOf(c, key));
        LessIrreflexive(x);
        if asc {
          assert !Less(y, x) && !Less(z, y);
          StringColumnTransitive(x, y, z);
        } else {
          assert !Less(x, y) && !Less(y, z);
          StringColumnTransitive(z, y, x);
        }
      }
    }
  }

  // ---------------------------------------------------------------------
  // The rows shown

  predicate Sorts(sort: SortConfig)
  {
    sort.key != "" && sort.direction != Unsorted
  }

  /** What the search-and-sort effect shows for the given rows. */
  function View(cfg: PageConfig, parse: string -> int, rows: seq<Row>, text: string, sort: SortConfig): seq<Row>
  {
    var found := Search(cfg, rows, text);
    if Sorts(sort) then SortBy(Comparator(cfg, parse, sort), found) else found
  }

  /** The rows shown are exactly the matching rows, with their multiplicity:
      a row is shown iff it was fetched and matches the search. */
  lemma ViewIsPermutationOfMatches(cfg: PageConfig, parse: string -> int, rows: seq<Row>, text: string, sort: SortConfig)
    ensures multiset(View(cfg, parse, rows, text, sort)) == multiset(Search(cfg, rows, text))
    ensures forall x :: x in View(cfg, parse, rows, text, sort) <==>
      x in rows && (text == "" || Matches(cfg.searchFields, x, Lower(text)))
  {
    var found := Search(cfg, rows, text);
    if Sorts(sort) {
      SortByPermutes(Comparator(cfg, parse, sort), found);
    }
    var v := View(cfg, parse, rows, text, sort);
    assert forall x :: x in v <==> x in multiset(v);
    assert forall x :: x in found <==> x in multiset(found);
  }

  /** With a sort chosen, the rows shown are ordered by its comparator and
      rows the comparator ties stay in fetched order. */
  lemma ViewIsSortedAndStable(cfg: PageConfig, parse: string -> int, rows: seq<Row>, text: string, sort: SortConfig, y: Row)
    requires Sorts(sort)
    ensures Sorted(Comparator(cfg, parse, sort), View(cfg, parse, rows, text, sort))
    ensures var cmp := Comparator(cfg, parse, sort);
      Ties(cmp, View(cfg, parse, rows, text, sort), y) == Ties(cmp, Search(cfg, rows, text), y)
  {
    var cmp := Comparator(cfg, parse, sort);
    ComparatorIsConsistent(cfg, parse, sort);
    SortBySorted(cmp, Search(cfg, rows, text));
    SortByStable(cmp, Search(cfg, rows, text), y);
  }

  // ---------------------------------------------------------------------
  // Filters

  /** The filter object: one entry per combobox whose selection is not "all". */
  function FilterMap(names: seq<string>, values: seq<string>): (r: map<string, string>)
    requires |names| == |values|
    ensures forall k :: k in r ==> exists i :: 0 <= i < |names| && names[i] == k && values[i] != "all"
    ensures forall i :: 0 <= i < |names| && values[i] != "all" ==> names[i] in r
    decreases |names|
  {
    if |names| == 0 then map[]
    else
      var rest := FilterMap(names[1..], values[1..]);
      if values[0] != "all" then rest[names[0] := values[0]] else rest
  }

  /** With distinct filter names, each chosen value is sent under its name. */
  lemma {:induction false} FilterMapValues(names: seq<string>, values: seq<string>, i: nat)
    requires |names| == |values| && i < |names| && values[i] != "all"
    requires forall p, q :: 0 <= p < q < |names| ==> names[p] != names[q]
    ensures FilterMap(names, values)[names[i]] == values[i]
    decreases |names|
  {
    if i > 0 {
      FilterMapValues(names[1..], values[1..], i - 1);
    }
  }

  lemma FilterMapAllIsEmpty(names: seq<string>, values: seq<string>)
    requires |names| == |values|
    requires forall i :: 0 <= i < |values| ==> values[i] == "all"
    ensures FilterMap(names, values) == map[]
  {
    var r := FilterMap(names, values);
    assert forall k :: k !in r;
  }

  /** The sessions page's badge style for a session status. */
  function StatusBadgeClass(status: string): (r: string)
    ensures r != "" <==> status in {"completed", "scheduled", "cancelled"}
    ensures r != "" ==> r == status
  {
    if status == "completed" || status == "scheduled" || status == "cancelled" then status else ""
  }

  // ---------------------------------------------------------------------
  // Page state

  class ListPage {
    const cfg: PageConfig
    var rows: seq<Row>
    var shown: seq<Row>
    var searchText: string
    var selections: seq<string>
    var selectedDate: Option<CalendarDate>
    var dateInput: string
    var sort: SortConfig

    ghost predicate Valid()
      reads this
    {
      |selections| == |cfg.filterNames| &&
      (selectedDate.Some? ==> cfg.hasDateFilter) &&
      (selectedDate.None? <==> dateInput == "") &&
      (selectedDate.Some? ==> IsIsoDateText(dateInput) && selectedDate.value == ParseIso(dateInput))
    }

    constructor(config: PageConfig)
      ensures Valid() && cfg == config
      ensures rows == [] && shown == [] && searchText == ""
      ensures selections == seq(|config.filterNames|, _ => "all")
      ensures selectedDate == None && dateInput == ""
      ensures sort == config.defaultSort
    {
      cfg := config;
      rows := [];
      shown := [];
      searchText := "";
      selections := seq(|config.filterNames|, _ => "all");
      selectedDate := None;
      dateInput := "";
      sort := config.defaultSort;
    }

    /** The fetch finished: both the rows and the shown rows become `data`. */
    method Loaded(data: seq<Row>)
      modifies this`rows, this`shown
      ensures rows == data && shown == data
    {
      rows := data;
      shown := data;
    }

    /** The search-and-sort effect. It does nothing while no rows were
      fetched; otherwise it shows the matching rows, sorted in place. */
    method Refresh(parse: string -> int)
      modifies this`shown
      ensures |rows| == 0 ==> shown == old(shown)
      ensures |rows| > 0 ==> shown == View(cfg, parse, rows, searchText, sort)
    {
      if |rows| == 0 {
        return;
      }
      var result := Search(cfg, rows, searchText);
      if sort.key != "" && sort.direction != Unsorted {
        var a := new Row[|result|](i requires 0 <= i < |result| => result[i]);
        assert a[..] == result;
        InsertionSort(a, Comparator(cfg, parse, sort));
        result := a[..];
      }
      shown := result;
    }

    method SearchChanged(text: string)
      modifies this`searchText
      ensures searchText == text
    {
      searchText := text;
    }

    /** A combobox selection: filter `i` takes the first selected option. */
    method FilterChanged(i: nat, value: string)
      requires Valid() && i < |selections|
      modifies this`selections
      ensures Valid() && selections == old(selections)[i := value]
    {
      selections := selections[i := value];
    }

    method HandleSort(key: string)
      modifies this`sort
      ensures sort == NextSort(old(sort), key)
    {
      sort := NextSort(sort, key);
    }

    /** The date input changed: its text is kept and, when not empty, the
      date it names becomes the selected date. */
    method DateChanged(value: string)
      requires Valid() && cfg.hasDateFilter
      requires value == "" || IsIsoDateText(value)
      modifies this`dateInput, this`selectedDate
      ensures Valid() && dateInput == value
      ensures value == "" ==> selectedDate == None
      ensures value != "" ==> selectedDate == Some(ParseIso(value))
    {
      dateInput := value;
      if value != "" {
        selectedDate := Some(ParseIso(value));
      } else {
        selectedDate := None;
      }
    }

    /** Whether the clear-filters button is enabled. */
    predicate ClearEnabled()
      reads this
    {
      searchText != "" ||
      (exists i :: 0 <= i < |selections| && selections[i] != "all") ||
      selectedDate.Some?
    }

    /** The filter object sent with the fetch. */
    function FilterParams(): (r: map<string, string>)
      requires Valid()
      reads this
      ensures selectedDate.None? ==> r == FilterMap(cfg.filterNames, selections)
      ensures selectedDate.Some? ==> "date" in r && r["date"] == dateInput
    {
      var base := FilterMap(cfg.filterNames, selections);
      if selectedDate.Some? then base["date" := FilterDate(dateInput)] else base
    }

    method ClearFilters()
      requires Valid()
      modifies this`searchText, this`selections, this`selectedDate, this`dateInput
      ensures Valid()
      ensures searchText == "" && selections == seq(|cfg.filterNames|, _ => "all")
      ensures cfg.hasDateFilter ==> selectedDate == None && dateInput == ""
      ensures !cfg.hasDateFilter ==> selectedDate == old(selectedDate) && dateInput == old(dateInput)
      ensures !ClearEnabled()
      ensures FilterParams() == map[]
    {
      searchText := "";
      selections := seq(|cfg.filterNames|, _ => "all");
      if cfg.hasDateFilter {
        selectedDate := None;
        dateInput := "";
      }
      FilterMapAllIsEmpty(cfg.filterNames, selections);
    }
  }
}
