# Employment-coach dashboard: a Dafny model

This project models the logic of a case-management dashboard for employment
coaches. Coaches keep records of participants (people looking for work), job
postings, coaching sessions and AI-assisted job matches. A Flask backend
stores these records in Cosmos DB document containers and serves them over a
REST interface. A Next.js frontend lists, filters, searches, sorts and edits
them.

The model covers the following parts of the system.

- **Repositories** (participants, jobs, sessions, job matches):
  - the query text and the numbered parameters each repository builds from
    its filters;
  - the projections it applies to stored documents;
  - create, read, field-by-field update and delete over a container;
  - the job-match compatibility references.

  A container is a `class` over a map from id to document. Its methods keep
  the invariant that every document is stored under its own id.
- **The in-memory sessions API**:
  - a `class` holding the list of session records;
  - filtering by successive comprehensions, proved equal to a one-pass
    selection;
  - create with its required fields and defaults;
  - merge-update, delete, and the observation and analysis steps.
- **Routes**: the guards, status codes and defaults of the job, participant,
  job-match and call-centre routes.
- **Backend services**:
  - the job-matching score;
  - the AI search ranking;
  - the text-analysis summaries;
  - the call-centre transcription post-processing;
  - the service configuration read from environment variables, and the
    service manager.
- **Frontend list pages** (jobs, participants, sessions), modelled as one
  list-page class configured per page:
  - server filters that skip `all`;
  - case-insensitive search;
  - the three-state sort cycle;
  - a stable sort, specified as a function on sequences and implemented in
    place on an array.
- **Frontend forms and the suggestions page**:
  - the tag editors;
  - form validation and the request payloads;
  - the job-match display mappings.

Python exceptions are results carrying the exception's class name, such as
`Err("KeyError")`. A route that lets an exception escape answers
`Raised(name)`. The following are parameters of the operations that use them:

- clocks and generated identifiers;
- random choices;
- the answers of external services and of the database's query engine.

## Model

| member | source | states |
|---|---|---|
| Strings.JoinSplit | app/backend/routes/jobs.py:113 | splitting a text at a one-character separator and joining the pieces again gives the text back |
| Strings.SplitJoin | app/backend/routes/jobs.py:113 | joining separator-free pieces and splitting again gives the pieces back |
| Strings.ParseIntUnderscored | app/backend/routes/job_matches.py:125 | `int` reads an underscore between two digits as if it were absent |
| Strings.ParseIntMisplacedUnderscores | app/backend/routes/job_matches.py:125 | `int` refuses a leading, a trailing or a doubled underscore |
| Json.Extend | app/backend/routes/sessions.py:227-231 | `list.extend` appends what iterating the argument yields: a list's items, a string's characters, a dict's keys (in ascending order); a scalar argument is a TypeError, and anything but a list has no `extend` |
| Json.AddText | app/backend/routes/sessions.py:218-219 | `+=` with a text grows a string by the text and a list by its characters; anything else is a TypeError |
| Json.PyLen | app/backend/db/repositories/participant_repository.py:39 | `len` gives the size of a list, string or dict and is a TypeError for any other value |
| Json.Items | app/backend/routes/sessions.py:227-231 | iterating a list yields its items, a string its one-character strings, a dict its keys (in ascending order); iterating `None`, a bool or a number is a TypeError |
| Json.SpaceJoined | app/backend/services/job_matches/main.py:44-48 | `" ".join` succeeds exactly when iterating the value yields only strings, and then joins them with single spaces; a dict joins its keys |
| Json.PyIn | app/backend/services/job_matcher_/ai_search_service.py:159 | `in` on a list holds exactly when some item equals the value under `==`; on a string it is the substring test for a text and a TypeError otherwise; on a dict it is key membership, a TypeError for a list or dict value; on a scalar it is a TypeError |
| Json.PyEqReflexive | app/backend/services/job_matcher_/ai_search_service.py:159 | every value equals itself under `==`, so it is `in` any list that holds it |
| Json.PyEqSymmetric | app/backend/services/job_matcher_/ai_search_service.py:172 | `a == b` and `b == a` agree |
| Json.PyEqBoolInt | app/backend/services/job_matcher_/ai_search_service.py:172 | `True == 1` and `False == 0`, also inside lists, while `True != 2`, `False != True` and `0 != "0"` |
| Json.PyContainsText | app/backend/services/job_matcher_/ai_search_service.py:145 | for a text, membership in a list under `==` is plain membership: only the same text equals it |
| Json.ReprPlainText | app/backend/routes/sessions.py:219 | a text without quotes, backslashes or control characters appears in `repr` between single quotes, unchanged |
| Json.ShowPlainTexts | app/backend/routes/sessions.py:219 | in an f-string a list of such texts appears as Python's `repr`: each text quoted, separated by a comma and a space, within brackets |
| Wrappers.MapAll | app/backend/db/repositories/participant_repository.py:92 | a comprehension over a function that may raise succeeds exactly when every item does, and then gives the result of each item in order |
| ListView.CellStringOrEmpty | app/frontend/src/app/jobs/page.tsx:263-264 | `String(v \|\| "")` is empty for every falsy value and `String(v)` otherwise |
| ListView.NextSort | app/frontend/src/app/jobs/page.tsx:341-358 | a click always sorts by the clicked column, and a new column starts ascending |
| ListView.NextSortCycles | app/frontend/src/app/participants/page.tsx:316-333 | three clicks on the sorted column come back to the starting configuration, passing through ascending, descending and unsorted |
| ListView.IconFor | app/frontend/src/app/jobs/page.tsx:361-374 | the up arrow shows exactly on the column sorted ascending and the down arrow exactly on the column sorted descending |
| ListView.MatchingRows | app/frontend/src/app/jobs/page.tsx:232-241 | a row is kept exactly when it was fetched and some search field, lowercased, contains the lowercased search text |
| ListView.MatchingRowsIsSubsequence | app/frontend/src/app/participants/page.tsx:240-248 | the search keeps every matching row with its full multiplicity and adds nothing |
| ListView.DescendingFlipsAscending | app/frontend/src/app/jobs/page.tsx:245-272 | on every kind of column the descending comparison is the ascending one negated, and the ascending one is antisymmetric |
| ListView.StringColumnTransitive | app/frontend/src/app/sessions/page.tsx:258-266 | the string comparison's "not after" is transitive |
| ListView.ComparatorIsConsistent | app/frontend/src/app/sessions/page.tsx:249-267 | every column comparator of every list page is a consistent comparator, so the sort's ordering and stability guarantees apply |
| ListView.ViewIsPermutationOfMatches | app/frontend/src/app/jobs/page.tsx:226-276 | the rows shown are a permutation of the matching rows: a row is shown exactly when it was fetched and matches the search |
| ListView.ViewIsSortedAndStable | app/frontend/src/app/sessions/page.tsx:231-271 | with a sort chosen the rows shown are ordered by the column comparator, and rows it ties stay in fetched order |
| ListView.FilterMap | app/frontend/src/app/jobs/page.tsx:202-209 | the filter object has an entry exactly for each combobox whose selection is not `all` |
| ListView.FilterMapValues | app/frontend/src/app/sessions/page.tsx:209-210 | each chosen value is sent under its filter's name |
| ListView.FilterMapAllIsEmpty | app/frontend/src/app/participants/page.tsx:215-217 | with every selection `all` no filter is sent |
| ListView.StatusBadgeClass | app/frontend/src/app/sessions/page.tsx:330-349 | a status gets a badge style exactly when it is completed, scheduled or cancelled, and the style is named after it |
| ListView.ListPage.constructor | app/frontend/src/app/sessions/page.tsx:165-185 | a page starts with no rows, an empty search, every selection `all`, no date and the page's default sort |
| ListView.ListPage.Loaded | app/frontend/src/app/jobs/page.tsx:212-214 | after a fetch both the rows and the rows shown are the fetched data |
| ListView.ListPage.Refresh | app/frontend/src/app/jobs/page.tsx:226-276 | the effect does nothing while no rows were fetched, and otherwise shows exactly the specified searched and sorted view |
| ListView.ListPage.SearchChanged | app/frontend/src/app/jobs/page.tsx:279-281 | the search text becomes the typed text |
| ListView.ListPage.FilterChanged | app/frontend/src/app/jobs/page.tsx:283-295 | a combobox change replaces only its own selection |
| ListView.ListPage.HandleSort | app/frontend/src/app/sessions/page.tsx:353-367 | the sort configuration takes its next step for the clicked column |
| ListView.ListPage.DateChanged | app/frontend/src/app/sessions/page.tsx:293-311 | corrected, see ## Findings: the input text is kept, and the selected date is the picked date, or none for an empty input |
| ListView.ListPage.FilterParams | app/frontend/src/app/sessions/page.tsx:203-214 | corrected, see ## Findings: without a date the filter object is the combobox filters; with one it also sends the picked date as the input's own text |
| ListView.ListPage.ClearFilters | app/frontend/src/app/sessions/page.tsx:314-320 | search and selections (and the date, where the page has one) are reset, the clear button becomes disabled and no filter is sent |
| DateFilter.DaysInMonth | app/frontend/src/app/sessions/page.tsx:300-305 | every month has between 28 and 31 days |
| DateFilter.Normalize | app/frontend/src/app/sessions/page.tsx:300-305 | a day that fits its month is kept, and one past the end rolls into the next month as `Date` does |
| DateFilter.JsSelectedDate | app/frontend/src/app/sessions/page.tsx:293-307 | the date the three setters build is always a real calendar date |
| DateFilter.JsSelectedDateEarlyInMonth | app/frontend/src/app/sessions/page.tsx:300-305 | when today's day of the month is at most 28 the setters land on the picked date |
| DateFilter.JsSelectedDateRollsOver | app/frontend/src/app/sessions/page.tsx:300-305 | on 31 January, picking 15 February selects 15 March |
| DateFilter.PrevDay | app/frontend/src/app/sessions/page.tsx:213 | the day before a real date is a real date |
| DateFilter.UtcDateOfLocalMidnight | app/frontend/src/app/sessions/page.tsx:213 | the UTC date of local midnight is the same date west of UTC and the previous day east of it |
| DateFilter.FixedDigits | app/frontend/src/app/sessions/page.tsx:213 | a fixed-width number text has exactly that many digits |
| DateFilter.FixedDigitsOfValue | app/frontend/src/app/sessions/page.tsx:299 | writing back the value of a digit text at its width gives the text |
| DateFilter.ValueOfFixedDigits | app/frontend/src/app/sessions/page.tsx:299 | a number that fits the width is read back from its fixed-width text |
| DateFilter.NatToStringFixed | app/frontend/src/app/sessions/page.tsx:299 | a number with exactly `w` digits prints as its fixed-width text |
| DateFilter.IsoText | app/frontend/src/app/sessions/page.tsx:213 | a `YYYY-MM-DD` text has ten characters |
| DateFilter.ParseIso | app/frontend/src/app/sessions/page.tsx:299 | splitting a date input value on `-` gives a real calendar date |
| DateFilter.IsoTextOfParse | app/frontend/src/app/sessions/page.tsx:299 | reading a date input value and writing it back gives the same text |
| DateFilter.ParseOfIsoText | app/frontend/src/app/sessions/page.tsx:213 | writing a date and reading the text back gives the same date |
| DateFilter.FilterDateAsWrittenShiftsEast | app/frontend/src/app/sessions/page.tsx:211-213 | as written, two hours east of UTC, picking 10 March 2025 sends the filter date 9 March |
| DateFilter.FilterDate | app/frontend/src/app/sessions/page.tsx:211-213 | the corrected filter date is exactly the picked date's own text |
| Tags.WithTag | app/frontend/src/app/participants/new/page.tsx:259-297 | adding a tag keeps the list as a prefix, adds the value at the end only when absent, and keeps a duplicate-free list duplicate-free |
| Tags.WithoutTag | app/frontend/src/app/participants/new/page.tsx:301-332 | removing a tag drops every copy of it and keeps every other tag in order; a tag not present leaves the list unchanged |
| Tags.WithTagIdempotent | app/frontend/src/app/participants/new/page.tsx:264-294 | adding the same tag twice is adding it once |
| Tags.WithoutUndoesWith | app/frontend/src/app/sessions/new/page.tsx:284-301 | removing a tag that was just added restores the list it was added to |
| Tags.IsValidEmailIffPattern | app/frontend/src/app/participants/new/page.tsx:366-371 | the form's e-mail check accepts exactly the texts the pattern `^[^\s@]+@[^\s@]+\.[^\s@]+$` matches |
| Tags.ValidEmailMatches | app/frontend/src/app/participants/new/page.tsx:366-371 | every text the form's e-mail check accepts has an `@` and a later dot splitting it into three non-empty runs without blanks or `@` |
| Tags.MatchIsValidEmail | app/frontend/src/app/participants/new/page.tsx:366-371 | every such split makes the form's e-mail check accept the text |
| ParticipantForm.Form.constructor | app/frontend/src/app/participants/new/page.tsx:154-186 | the form starts blank with status `seeking`, no tags, no pending tag text and no messages |
| ParticipantForm.Form.InputChanged | app/frontend/src/app/participants/new/page.tsx:190-204 | a text field takes the typed value, and a message shown for it is cleared |
| ParticipantForm.Form.ComboboxChanged | app/frontend/src/app/participants/new/page.tsx:207-222 | without a selected option nothing changes; otherwise the field takes the first option and its message is cleared |
| ParticipantForm.Form.StatusChanged | app/frontend/src/app/participants/new/page.tsx:225-233 | the radio group sets only the current status |
| ParticipantForm.Form.TagInputChanged | app/frontend/src/app/participants/new/page.tsx:251-256 | only that list's pending text changes |
| ParticipantForm.Form.AddTag | app/frontend/src/app/participants/new/page.tsx:259-298 | an empty trimmed text changes nothing; otherwise the trimmed text joins the list unless already there, and the pending text is cleared either way |
| ParticipantForm.Form.RemoveTag | app/frontend/src/app/participants/new/page.tsx:301-332 | the tag leaves only its own list |
| ParticipantForm.Form.ValidateForm | app/frontend/src/app/participants/new/page.tsx:343-375 | there is a "<label> is required" message exactly for each empty required field, the invalid-email message for a non-empty malformed e-mail, nothing else, and the form is valid exactly when every required field is filled and the e-mail is well formed |
| ParticipantForm.MissingRequired | app/frontend/src/app/participants/new/page.tsx:359-363 | over distinct field names, a "<label> is required" message is produced exactly for each empty field, and for no other key |
| ParticipantForm.Form.Draft | app/frontend/src/app/participants/new/page.tsx:394-400 | the submitted participant has every form field, full name "<first> <last>", and empty work history, goals and job matches |
| ParticipantForm.Form.Submit | app/frontend/src/app/participants/new/page.tsx:378-402 | a document is submitted exactly when the form is complete, and it is the draft |
| SessionForm.NameFor | app/frontend/src/app/sessions/new/page.tsx:233-239 | the participant name is that of the first loaded participant with the picked id, or empty when none has it |
| SessionForm.InitialDateInputIsIso | app/frontend/src/app/sessions/new/page.tsx:166-173 | for four-digit years the initial date text is today's `YYYY-MM-DD` text, a value the date input accepts |
| SessionForm.DateTimeTextRoundTrip | app/frontend/src/app/sessions/new/page.tsx:389 | the submitted date and start time make an ISO 8601 date-time from which both can be read back |
| SessionForm.Form.constructor | app/frontend/src/app/sessions/new/page.tsx:150-210 | the form starts blank with status `scheduled`, no tags, today's date in the date input and no participants |
| SessionForm.Form.ParticipantsLoaded | app/frontend/src/app/sessions/new/page.tsx:180-200 | the picker's participants become the loaded list |
| SessionForm.Form.InputChanged | app/frontend/src/app/sessions/new/page.tsx:213-221 | a text field takes the typed value, and a message shown for it is cleared |
| SessionForm.Form.ComboboxChanged | app/frontend/src/app/sessions/new/page.tsx:224-247 | without a selected option nothing changes; picking a participant sets its id and name, any other field takes the option, and the field's message is cleared |
| SessionForm.Form.DateChanged | app/frontend/src/app/sessions/new/page.tsx:250-270 | the date text is kept, and a non-empty value clears the date message |
| SessionForm.Form.TagInputChanged | app/frontend/src/app/sessions/new/page.tsx:273-281 | only that list's pending text changes |
| SessionForm.Form.AddTag | app/frontend/src/app/sessions/new/page.tsx:284-293 | the trimmed text joins its list only when non-empty and absent, and only then is the pending text cleared, so a duplicate stays in the input |
| SessionForm.Form.RemoveTag | app/frontend/src/app/sessions/new/page.tsx:296-301 | the tag leaves only its own list |
| SessionForm.Form.ValidateForm | app/frontend/src/app/sessions/new/page.tsx:312-345 | there is a message exactly for each of the seven empty checked values, with its own text, and the form is valid exactly when none is empty; the end time is not compared with the start time |
| SessionForm.Form.Draft | app/frontend/src/app/sessions/new/page.tsx:371-399 | the submitted session carries the form's fields, the date-time text of the date and the start time, the status and empty AI suggestions |
| SessionForm.Form.Submit | app/frontend/src/app/sessions/new/page.tsx:348-402 | a session is submitted exactly when the form is complete, and it is the draft |
| Suggestions.ScoreBadge | app/frontend/src/app/jobs/suggestions/page.tsx:216-220 | the badge is high exactly from 80, medium exactly from 60 to 79, and low exactly below 60 |
| Suggestions.ScoreBadgeMonotone | app/frontend/src/app/jobs/suggestions/page.tsx:216-220 | the badge never falls as the score rises |
| Suggestions.Capitalize | app/frontend/src/app/jobs/suggestions/page.tsx:252 | only the first character is upper-cased and the rest is kept |
| Suggestions.CapitalizeIdempotent | app/frontend/src/app/jobs/suggestions/page.tsx:252 | capitalising twice is capitalising once |
| Suggestions.FormatCategory | app/frontend/src/app/jobs/suggestions/page.tsx:223-254 | a listed category takes its fixed label, and any other text is capitalised |
| Suggestions.CategoryLabelsDistinct | app/frontend/src/app/jobs/suggestions/page.tsx:224-250 | the switch has thirteen distinct categories |
| Suggestions.FormatCategoryCases | app/frontend/src/app/jobs/suggestions/page.tsx:223-254 | each of the thirteen categories shows its own label, and the empty text stays empty |
| Suggestions.TopFactors | app/frontend/src/app/jobs/suggestions/page.tsx:379-381 | the factors shown are the first three elements, or all of them when fewer |
| Suggestions.Unique | app/frontend/src/app/jobs/suggestions/page.tsx:391-393 | `Array.from(new Set(...))` holds each distinct text exactly once and nothing else |
| Suggestions.FirstIndex | app/frontend/src/app/jobs/suggestions/page.tsx:391-393 | the first occurrence of a text is where it first appears |
| Suggestions.FirstIndexPrefix | app/frontend/src/app/jobs/suggestions/page.tsx:391-393 | a text's first occurrence is the same in any prefix that contains it |
| Suggestions.UniqueKeepsFirstOccurrenceOrder | app/frontend/src/app/jobs/suggestions/page.tsx:391-393 | the distinct texts come in the order of their first occurrence |
| Suggestions.CategoryTags | app/frontend/src/app/jobs/suggestions/page.tsx:390-395 | the category tags are the first five distinct categories of the suggestion in order of first occurrence, or all of them when there are fewer |
| Suggestions.Page.constructor | app/frontend/src/app/jobs/suggestions/page.tsx:143-149 | the page starts with no participants, no selection, no suggestions and no saving flags |
| Suggestions.Page.ParticipantsLoaded | app/frontend/src/app/jobs/suggestions/page.tsx:152-166 | the picker's participants become the loaded list |
| Suggestions.Page.ParticipantSelect | app/frontend/src/app/jobs/suggestions/page.tsx:169-197 | an empty selection or an unknown id changes nothing; a known participant becomes the selection and the old suggestions are cleared |
| Suggestions.Page.SuggestionsArrived | app/frontend/src/app/jobs/suggestions/page.tsx:186-190 | the suggestions become the fetched ones |
| Suggestions.Page.CreateJobMatch | app/frontend/src/app/jobs/suggestions/page.tsx:200-213 | nothing happens without a selected participant; otherwise the job's saving flag is set, and set back to false when the request fails; no other job's flag changes |
| Previews.FindById | app/frontend/src/app/jobs/suggestions/page.tsx:176 | `find` gives nothing exactly when no preview has the id, and otherwise the first preview with it |
| Tables.Lookup | app/frontend/src/types/job-matches.ts:159-172 | a lookup fails exactly when no entry has the key, and otherwise gives the value of an entry with that key |
| Tables.LookupEntry | app/frontend/src/types/job-matches.ts:140-156 | with distinct keys every entry is found under its own key |
| Tables.FindIndex | app/frontend/src/app/jobs/suggestions/page.tsx:176 | the index of the first element satisfying the test, or nothing when none does |
| JobMatchDisplay.Mapping | app/frontend/src/types/job-matches.ts:140-156 | each mapping has distinct, non-empty keys |
| JobMatchDisplay.DisplayValue | app/frontend/src/types/job-matches.ts:159-172 | the empty value shows as empty, a mapped value shows its label, and any other value shows unchanged |
| JobMatchDisplay.Options | app/frontend/src/types/job-matches.ts:175-183 | one option per mapping entry, in declaration order, with the entry's value and text |
| JobMatchDisplay.OptionsDisplayTheirText | app/frontend/src/types/job-matches.ts:140-183 | every drop-down option displays as its own text |
| JobMatchDisplay.OptionCounts | app/frontend/src/types/job-matches.ts:140-156 | there are eight status options and three source options |
| JobMatchDisplay.SpecialLabels | app/frontend/src/types/job-matches.ts:149-152 | `not-suitable` shows as "Not Suitable" and `system-generated` as "AI Suggested" |
| Sorting.SortByPermutes | app/frontend/src/app/jobs/page.tsx:245-272 | sorting only reorders: the result has the same elements with the same multiplicities |
| Sorting.SortBySorted | app/frontend/src/app/jobs/page.tsx:245-272 | for a consistent comparator the sorted result is ordered by it |
| Sorting.SortByStable | app/backend/services/job_matcher_/ai_search_service.py:181 | elements the comparator ties keep their input order, as Python's and JavaScript's sorts guarantee |
| Sorting.SortBySortedInput | app/frontend/src/app/jobs/page.tsx:245-272 | sorting an already ordered sequence leaves it unchanged |
| Sorting.InsertionSort | app/frontend/src/app/jobs/page.tsx:245 | the in-place `result.sort` leaves the array holding exactly the stable sort of its old contents |
| Cosmos.IdOf | app/backend/db/repositories/session_repository.py:62-65 | a document has an id exactly when its `id` field is a text, and then the id is that text |
| Cosmos.Container.constructor | app/backend/db/repositories/session_repository.py:6-14 | a container starts with the given documents, each stored under its own id |
| Cosmos.Container.ReadItem | app/backend/db/repositories/session_repository.py:49-58 | the document stored under the id, carrying that id, or the not-found exception |
| Cosmos.Container.CreateItem | app/backend/db/repositories/job_repository.py:103 | a body without a text id is refused and one whose id is taken is a conflict, both leaving the container unchanged; otherwise the body is stored under its id and returned |
| Cosmos.Container.ReplaceItem | app/backend/db/repositories/job_repository.py:122-125 | a missing document is not found and a body whose id differs is refused, both with nothing changed; otherwise the body takes the document's place |
| Cosmos.Container.DeleteItem | app/backend/db/repositories/job_repository.py:133-136 | a present document is removed and nothing else changes; a missing one is not found |
| Cosmos.Overlay | app/backend/db/repositories/job_repository.py:114-116 | the update writes exactly the non-None, unprotected request values over the stored document and keeps every other stored field |
| Cosmos.OverlayIdempotent | app/backend/db/repositories/job_repository.py:114-116 | applying the same update twice is applying it once |
| Cosmos.OverlayNothingToWrite | app/backend/db/repositories/job_match_repository.py:107-109 | an update whose values are all None or protected changes nothing |
| Cosmos.OverlayLoop | app/backend/db/repositories/job_match_repository.py:107-109 | the loop over the request's keys gives the specified overlay |
| Cosmos.Updated | app/backend/db/repositories/job_repository.py:113-119 | the updated document is the overlay plus `updatedAt` set to the clock reading |
| Cosmos.UpdatedId | app/backend/db/repositories/job_repository.py:114-125 | the updated document keeps the id it is stored under exactly when the update writes no id or that same id |
| Cosmos.UpdateDocument | app/backend/db/repositories/job_repository.py:105-128 | None and nothing written for a missing document or an update that changes the id; otherwise the updated document is stored and returned |
| Cosmos.WithDefault | app/backend/db/repositories/job_match_repository.py:93-94 | a default is added only when the key is absent, and no other field changes |
| Cosmos.Stamped | app/backend/db/repositories/job_repository.py:94-101 | a new document gets an id only when none is given and one clock reading for both time stamps, every other field kept |
| Cosmos.StampedTwice | app/backend/db/repositories/job_match_repository.py:61-67 | stamping again keeps the id and replaces only the two time stamps |
| Http.FirstMissing | app/backend/routes/participants.py:47-50 | nothing is missing exactly when every required field is present; otherwise the answer is an absent field with every earlier required field present |
| Http.CheckRequired | app/backend/routes/jobs.py:47-51 | the loop over the required fields stops at the first absent one, the specified first missing field |
| Queries.WithWhereBare | app/backend/db/repositories/job_repository.py:62-66 | the query text is the bare `SELECT * FROM c` exactly when no clause was built |
| Queries.PartsJoin | app/backend/db/repositories/job_repository.py:62-66 | joining the select and the `WHERE` part with a space gives `SELECT * FROM c WHERE ` and the clauses joined by ` AND ` |
| Queries.WhereQuery | app/backend/db/repositories/participant_repository.py:79-83 | the assembled query text is the select alone without clauses, or the select, ` WHERE ` and the clauses joined by ` AND ` |
| Queries.NumberedInjective | app/backend/db/repositories/job_repository.py:42-44 | different counter values give different `@p<n>` parameter names |
| Queries.NumberedClauses | app/backend/db/repositories/job_repository.py:41-60 | one clause per applied filter, the k-th naming `@pk` |
| Queries.NumberedParams | app/backend/db/repositories/job_repository.py:41-60 | one parameter per applied filter, the k-th named `@pk` and carrying that filter's value |
| Queries.NumberedSnoc | app/backend/db/repositories/job_repository.py:46-49 | one more applied filter adds one clause and one parameter at the end, numbered with the incremented counter |
| Queries.NumberedParamsDistinct | app/backend/db/repositories/job_repository.py:41-60 | the parameter names of one query are pairwise different |
| Queries.AddNumbered | app/backend/db/repositories/job_repository.py:41-44 | one `if` block keeps the counter equal to the number of applied filters and the clauses and parameters those of the filters applied so far |
| JobMatchRepository.ReferenceOf | app/backend/db/repositories/job_match_repository.py:198-248 | a reference lookup succeeds exactly when the id is a text naming a stored document, and gives exactly the selected fields that document has, with its values |
| JobMatchRepository.WithReference | app/backend/db/repositories/job_match_repository.py:82-90 | a reference stage adds at most its own key and changes no existing field |
| JobMatchRepository.ReferenceStage | app/backend/db/repositories/job_match_repository.py:82-90 | a reference already present is kept; otherwise it is added exactly when the id is present and names a stored document with at least one selected field, and then equals that reference |
| JobMatchRepository.HistoriedKeeps | app/backend/db/repositories/job_match_repository.py:60-79 | filling id, time stamps, source and history leaves every other field of the request as it was, present or absent |
| JobMatchRepository.NewJobMatchStamps | app/backend/db/repositories/job_match_repository.py:60-71 | the id is generated only when absent, `createdAt` and `updatedAt` are the same clock reading, and `source` defaults to `coach-assigned` while a supplied one is kept |
| JobMatchRepository.NewJobMatchHistory | app/backend/db/repositories/job_match_repository.py:73-79 | without a history the new match has exactly one entry with the match status (default `considering`), the creation time and the note `Initial match created`; a given history is kept |
| JobMatchRepository.NewJobMatchKeeps | app/backend/db/repositories/job_match_repository.py:58-96 | `compatibilityElements` defaults to the empty list and every request field other than id and time stamps is stored as sent |
| JobMatchRepository.NewJobMatchKeepsKey | app/backend/db/repositories/job_match_repository.py:58-96 | the same, one field at a time |
| JobMatchRepository.NewJobMatchJobReference | app/backend/db/repositories/job_match_repository.py:82-85 | the job reference is kept when supplied, and otherwise added exactly when `jobId` names a stored job with a non-empty reference |
| JobMatchRepository.NewJobMatchParticipantReference | app/backend/db/repositories/job_match_repository.py:87-90 | the same for the participant reference and `participantId` |
| JobMatchRepository.FillDefaults | app/backend/db/repositories/job_match_repository.py:60-79 | the in-place filling of id, time stamps, source and history gives the specified request |
| JobMatchRepository.AddDefault | app/backend/db/repositories/job_match_repository.py:93-94 | a default is written only when the key is absent |
| JobMatchRepository.AddReference | app/backend/db/repositories/job_match_repository.py:82-90 | the in-place reference step gives the specified reference stage |
| JobMatchRepository.StatusEntry | app/backend/db/repositories/job_match_repository.py:137-143 | a history entry holds exactly the status and the date, plus the notes exactly when they are truthy |
| JobMatchRepository.StatusChangedAppends | app/backend/db/repositories/job_match_repository.py:123-157 | a status change sets the status and `updatedAt`, appends exactly one entry with the new status at the end of the history (a missing history counts as empty) and changes nothing else; it fails exactly when the stored history is not a list |
| JobMatchRepository.JobMatchRepository.constructor | app/backend/db/repositories/job_match_repository.py:10-31 | the repository holds the job-match, job and participant containers |
| JobMatchRepository.JobMatchRepository.GetJobMatch | app/backend/db/repositories/job_match_repository.py:42-56 | the stored match with that id, or None |
| JobMatchRepository.JobMatchRepository.CreateJobMatch | app/backend/db/repositories/job_match_repository.py:58-96 | the completed match is stored under its id when that id is new, and the container is unchanged with an error otherwise |
| JobMatchRepository.JobMatchRepository.CompletedMatch | app/backend/db/repositories/job_match_repository.py:58-94 | the in-place steps of the create give the specified completed match, with references read from the job and participant containers |
| JobMatchRepository.JobMatchRepository.UpdateJobMatch | app/backend/db/repositories/job_match_repository.py:98-121 | None and nothing written for a missing match; otherwise every non-None value except `id`, `participantId` and `jobId` is written, `updatedAt` refreshed, and those three fields provably keep their stored values |
| JobMatchRepository.JobMatchRepository.UpdateJobMatchStatus | app/backend/db/repositories/job_match_repository.py:123-157 | None for a missing match or a history that is not a list, with nothing written; otherwise the status change is stored and returned |
| JobMatchRepository.JobMatchRepository.CalculateCompatibility | app/backend/db/repositories/job_match_repository.py:250-297 | None when the participant or the job is missing or the scoring raises; otherwise the scoring service's compatibility of the two |
| JobRepository.AllJobsFilters | app/backend/db/repositories/job_repository.py:41-60 | a filter of `get_all_jobs` takes part exactly when its value is neither None, empty nor `all`, carrying that value, in the order status, employment type, industry, location |
| JobRepository.AllJobsQueryShape | app/backend/db/repositories/job_repository.py:34-66 | the query has no WHERE part exactly when no filter applies; otherwise clause `i` names parameter `@p<i>`, one parameter per clause |
| JobRepository.SkillConditions | app/backend/db/repositories/job_repository.py:184-187 | one `ARRAY_CONTAINS` condition per skill, numbered after the parameters already used |
| JobRepository.SkillParams | app/backend/db/repositories/job_repository.py:184-188 | one parameter per skill, numbered after those already used, carrying that skill |
| JobRepository.SearchClausesAvoidStatus | app/backend/db/repositories/job_repository.py:158-200 | no clause `search_jobs` builds mentions `c.status`, since user values travel only as parameters |
| JobRepository.SearchAlwaysActive | app/backend/db/repositories/job_repository.py:194-203 | the search always restricts to active jobs: alone when there are no clauses, after all clauses otherwise; there are no clauses exactly when no criterion is truthy and no skill is given |
| JobRepository.SearchParamsNumbered | app/backend/db/repositories/job_repository.py:158-191 | the parameters are `@p1`, `@p2`, ... in order, the truthy text, location and employment type first and then one per skill, each skill condition in the single OR group naming its own parameter |
| JobRepository.AddSkills | app/backend/db/repositories/job_repository.py:182-191 | the skill loop builds the OR group and appends one numbered parameter per skill, advancing the counter by the number of skills |
| JobRepository.NewJob | app/backend/db/repositories/job_repository.py:92-103 | the created job keeps every request field, gets an id and a posting date only when absent, and both time stamps are the same creation time |
| JobRepository.AnnotatedScore | app/backend/db/repositories/job_repository.py:235-238 | a job whose compatibility can be computed is annotated with that match score, which lies in [0,100] |
| JobRepository.AnnotatedAll | app/backend/db/repositories/job_repository.py:234-238 | when every compatibility can be computed, every job is annotated with a score in [0,100] |
| JobRepository.SuggestionsRanked | app/backend/db/repositories/job_repository.py:234-243 | the intended suggestions are all the annotated jobs, as a permutation, ordered by match score highest first |
| JobRepository.SuggestionsAsWrittenEmpty | app/backend/db/repositories/job_repository.py:218-247 | as written, an existing participant with at least one job gets no suggestions, while the intended version returns every job |
| JobRepository.SearchCriteria | app/backend/db/repositories/job_repository.py:151-191 | the step-by-step criteria building gives exactly the specified clauses and parameters |
| JobRepository.ActiveQuery | app/backend/db/repositories/job_repository.py:193-203 | the step-by-step text building gives exactly the specified active-only query |
| JobRepository.JobRepository.constructor | app/backend/db/repositories/job_repository.py:8-26 | the repository holds the jobs and participants containers |
| JobRepository.JobRepository.GetAllJobsQuery | app/backend/db/repositories/job_repository.py:28-66 | the query text and parameters `get_all_jobs` sends are the specified numbered filters |
| JobRepository.JobRepository.SearchJobsQuery | app/backend/db/repositories/job_repository.py:142-203 | the query text and parameters `search_jobs` sends are the specified criteria with the active-only restriction |
| JobRepository.JobRepository.GetJob | app/backend/db/repositories/job_repository.py:76-90 | the stored job with that id, or None |
| JobRepository.JobRepository.CreateJob | app/backend/db/repositories/job_repository.py:92-103 | the completed job is stored under its id when that id is new, and the container is unchanged with an error otherwise |
| JobRepository.JobRepository.UpdateJob | app/backend/db/repositories/job_repository.py:105-128 | None and nothing written for a missing job; otherwise every non-None value, `id` included, is written and `updatedAt` refreshed, and a replace whose body id no longer matches fails with nothing written |
| JobRepository.JobRepository.DeleteJob | app/backend/db/repositories/job_repository.py:130-140 | true exactly when the job existed, and afterwards it is gone |
| JobRepository.JobRepository.GetJobSuggestionsForParticipant | app/backend/db/repositories/job_repository.py:213-247 | the intended suggestions: `[]` for a missing participant or a failing compatibility, otherwise every job annotated and sorted by score highest first |
| ParticipantRepository.MapToPreview | app/backend/db/repositories/participant_repository.py:23-44 | the preview is built exactly when the six core fields are present and `jobMatches` (default `[]`) has a length; otherwise the KeyError or TypeError |
| ParticipantRepository.PreviewShape | app/backend/db/repositories/participant_repository.py:25-42 | a preview holds exactly the six core fields copied, the avatar only when present, the number of job matches (0 without any) and a session count of 0 |
| ParticipantRepository.PreviewKeepsId | app/backend/db/repositories/participant_repository.py:26 | a preview carries its participant's id |
| ParticipantRepository.WithSessionCounts | app/backend/db/repositories/participant_repository.py:95-96 | the second pass keeps one preview per preview |
| ParticipantRepository.PreviewsCounted | app/backend/db/repositories/participant_repository.py:91-98 | the listing succeeds exactly when every item projects; then preview `i` is item `i`'s projection with the session count of item `i`'s id (0 when the count query gives no row or raises) |
| ParticipantRepository.ParticipantFilters | app/backend/db/repositories/participant_repository.py:59-72 | status and disability type take part exactly when given and not `all`, the coach when given, each with its own value, in the order status, disability type, coach |
| ParticipantRepository.SkillTypeInQuery | app/backend/db/repositories/participant_repository.py:75-81 | the skill type is written into the query text |
| ParticipantRepository.ParticipantQueryShape | app/backend/db/repositories/participant_repository.py:56-81 | with a skill filter there is one parameter fewer than clauses and the skill type is in the text; clause `i` of the numbered filters names `@p<i>` |
| ParticipantRepository.JoinLast | app/backend/db/repositories/participant_repository.py:81 | joining with `" AND "` puts the last clause after the others and one separator |
| ParticipantRepository.ParticipantCriteria | app/backend/db/repositories/participant_repository.py:56-77 | the clause-building code yields exactly the specified clauses and parameters, the counter also advancing for the skill clause |
| ParticipantRepository.Project | app/backend/db/repositories/participant_repository.py:92 | the list comprehension gives the previews of all items in order, or the first item's error |
| ParticipantRepository.CountSessions | app/backend/db/repositories/participant_repository.py:95-96 | the loop writes every preview's session count and changes nothing else |
| ParticipantRepository.ParticipantRepository.constructor | app/backend/db/repositories/participant_repository.py:8-16 | the repository works on the given participants container |
| ParticipantRepository.ParticipantRepository.GetAllParticipantsQuery | app/backend/db/repositories/participant_repository.py:46-83 | the query text is `SELECT * FROM c` with the specified clauses after `WHERE`, and the specified parameters |
| ParticipantRepository.ParticipantRepository.GetAllParticipants | app/backend/db/repositories/participant_repository.py:46-98 | the container's answer to that query, projected and counted as `PreviewsCounted` states |
| ParticipantRepository.ParticipantRepository.GetParticipant | app/backend/db/repositories/participant_repository.py:116-130 | the participant stored under the id, or None; a found document carries that id |
| ParticipantRepository.ParticipantRepository.CreateParticipant | app/backend/db/repositories/participant_repository.py:132-140 | the body with id (a new uuid when absent) and both timestamps is stored under its id; an id already taken is an error and stores nothing |
| ParticipantRepository.ParticipantRepository.UpdateParticipant | app/backend/db/repositories/participant_repository.py:142-165 | None and nothing written for a missing participant; otherwise the non-None request values over the stored document with a fresh `updatedAt` replace it, None when the replace is refused |
| ParticipantRepository.ParticipantRepository.DeleteParticipant | app/backend/db/repositories/participant_repository.py:167-177 | True exactly when the participant existed; afterwards it is gone and nothing else changed |
| ParticipantRepository.ParticipantRepository.GetParticipantJobMatches | app/backend/db/repositories/participant_repository.py:192-198 | `[]` for a missing participant, otherwise its `jobMatches`, `[]` when it has none |
| AISearchService.Extended | app/backend/services/job_matcher_/ai_search_service.py:145-148 | an absent key leaves the skills unchanged; a present value appends what iterating it yields (items, characters or dict keys), and a scalar fails; a list of skills is searched for the key and raises TypeError when `list.get` would be reached, and a scalar raises TypeError |
| AISearchService.ParticipantSkills | app/backend/services/job_matcher_/ai_search_service.py:143-148 | no skills without a `skills` field; with a dict, what iterating its technical entry yields followed by what its soft entry yields, each absent entry adding nothing |
| AISearchService.MatchingSkills | app/backend/services/job_matcher_/ai_search_service.py:159 | exactly the participant's skills that equal a required one under Python's `==`: a subsequence of the skills, in their order, holding each such skill as often as the participant lists it and no other skill |
| AISearchService.MatchingSkillsBoolInt | app/backend/services/job_matcher_/ai_search_service.py:159 | a skill `True` matches a required `1` and a skill `0` a required `False`, while a skill `"0"` does not |
| AISearchService.LocationScan | app/backend/services/job_matcher_/ai_search_service.py:164-168 | no preferred locations never match; with texts, a match exactly when some preferred location occurs in the job's, ignoring case |
| AISearchService.ScanLocations | app/backend/services/job_matcher_/ai_search_service.py:164-168 | the loop that stops at the first match gives exactly the specified scan |
| AISearchService.Filtered | app/backend/services/job_matcher_/ai_search_service.py:117-123 | exactly the jobs that mention the query in title, company, location or a skill, ignoring case |
| AISearchService.SkillPart | app/backend/services/job_matcher_/ai_search_service.py:158-161 | 0 when the job lists no required skills; otherwise 50 times the number of the participant's skills equal under `==` to one in the required list (repeats counted), divided by the number of required skills |
| AISearchService.ByScoreDescIsComparator | app/backend/services/job_matcher_/ai_search_service.py:181 | ordering by score, highest first, is a total preorder |
| AISearchService.RankingOrdered | app/backend/services/job_matcher_/ai_search_service.py:180-182 | the ranking is ordered by score, highest first, is a prefix of the sorted copies and respects the limit |
| AISearchService.RankingReorders | app/backend/services/job_matcher_/ai_search_service.py:181 | sorting is a permutation and keeps equal scores in sample order |
| AISearchService.MatchingAllRequired | app/backend/services/job_matcher_/ai_search_service.py:159 | when every skill is required, all of them match, repeats included |
| AISearchService.JobScoreCanExceed100 | app/backend/services/job_matcher_/ai_search_service.py:159-177 | the search score has no clamp: a participant listing the one required skill k times scores 50·k from skills alone, so any k above 2 exceeds 100 |
| AISearchService.ScoreJob | app/backend/services/job_matcher_/ai_search_service.py:155-177 | one pass of the scoring loop gives exactly the specified score |
| AISearchService.SortedByScore | app/backend/services/job_matcher_/ai_search_service.py:181 | the in-place sort gives exactly the stable sort by score, highest first |
| AISearchService.AISearchService.constructor | app/backend/services/job_matcher_/ai_search_service.py:10-13 | the service holds the given sample jobs |
| AISearchService.AISearchService.SearchJobs | app/backend/services/job_matcher_/ai_search_service.py:97-127 | at most `limit` sample jobs, each mentioning a non-trivial query, taken from the shuffled selection |
| AISearchService.AISearchService.FindJobMatches | app/backend/services/job_matcher_/ai_search_service.py:129-182 | the scored copies sorted by score, highest first, cut to the limit, or the exception scoring raises; preferred locations are what iterating the field yields (a dict's keys, a string's characters) |
| SessionRepository.ClausesOf | app/backend/db/repositories/session_repository.py:22-36 | one `c.<field> = @<field>` clause per applied filter, in order |
| SessionRepository.ParamsOf | app/backend/db/repositories/session_repository.py:22-36 | one `@<field>` parameter per applied filter, carrying that filter's value |
| SessionRepository.AppliedFilters | app/backend/db/repositories/session_repository.py:22-36 | a filter takes part exactly when its argument is truthy, with that argument as its value, in the order coach, participant, status, type |
| SessionRepository.SessionQueryBare | app/backend/db/repositories/session_repository.py:38-39 | the query has no WHERE part exactly when no filter is truthy |
| SessionRepository.SessionParamsMatchClauses | app/backend/db/repositories/session_repository.py:22-36 | one parameter per clause, and each clause compares its field with the parameter at the same position, which carries the filter's value |
| SessionRepository.AppendFilters | app/backend/db/repositories/session_repository.py:22-36 | clauses and parameters of consecutive filter blocks concatenate |
| SessionRepository.AppliedClauses | app/backend/db/repositories/session_repository.py:22-36 | the clauses and parameters are those of the four blocks one after another |
| SessionRepository.AddFilter | app/backend/db/repositories/session_repository.py:22-24 | one `if` block appends its clause and its parameter exactly when the argument is truthy |
| SessionRepository.WithSessionId | app/backend/db/repositories/session_repository.py:62-63 | a body with an id is kept as is; one without gets `session-` and eight hex digits, nothing else changing |
| SessionRepository.ObservationsAdded | app/backend/db/repositories/session_repository.py:98-103 | no notes in the request changes nothing; a record without `notes` is a KeyError; otherwise only `notes` changes: a non-empty text grows by a blank line and the f-string text of the new notes (Python's `str`, so `repr` for lists and dicts), an empty one is replaced |
| SessionRepository.SessionRepository.constructor | app/backend/db/repositories/session_repository.py:6-14 | the repository works on the given sessions container |
| SessionRepository.SessionRepository.GetAllSessionsQuery | app/backend/db/repositories/session_repository.py:16-39 | the query text and parameters are the specified clauses after `WHERE` (none when no filter applies) and their parameters |
| SessionRepository.SessionRepository.GetSession | app/backend/db/repositories/session_repository.py:49-58 | the stored session, or None |
| SessionRepository.SessionRepository.CreateSession | app/backend/db/repositories/session_repository.py:60-65 | the body with its id (generated when absent) is stored under it; a taken id is an error and stores nothing |
| SessionRepository.SessionRepository.UpdateSession | app/backend/db/repositories/session_repository.py:67-77 | the body with `id` set to the session id replaces the stored one and is returned; a missing session gives None and writes nothing |
| SessionRepository.SessionRepository.DeleteSession | app/backend/db/repositories/session_repository.py:79-88 | afterwards the session is gone and nothing else changed |
| SessionRepository.SessionRepository.AddObservations | app/backend/db/repositories/session_repository.py:90-110 | None and nothing written for a missing session or a raising step; otherwise the record with its notes grown is saved and returned |
| SessionRepository.SessionRepository.GenerateAnalysis | app/backend/db/repositories/session_repository.py:112-178 | None for a missing session; the no-notes error object and no write when the notes are falsy; otherwise the analysis (from the service, or the fixed mock) is stored as `aiSuggestions` and returned |
| SessionStore.HasRequiredIffNoneMissing | app/backend/routes/sessions.py:137-140 | a create request has every required field exactly when the ordered check finds none missing |
| SessionStore.NewSession | app/backend/routes/sessions.py:143-170 | the new record carries every key the routes read, the id `session-` plus eight hex digits, and the request's status, topics, goals and step lists or their defaults (`scheduled`, empty lists) |
| SessionStore.Keep | app/backend/routes/sessions.py:108 | a comprehension keeps exactly the records satisfying its condition and never grows the list |
| SessionStore.KeepSnoc | app/backend/routes/sessions.py:108 | filtering a list with one more record at the end adds that record exactly when it passes |
| SessionStore.KeepKeep | app/backend/routes/sessions.py:107-117 | two comprehensions in turn keep what one comprehension with both conditions keeps, in the same order |
| SessionStore.Where | app/backend/routes/sessions.py:107-117 | one filter keeps exactly the records whose field equals a given argument, and every record when the argument is absent or empty |
| SessionStore.Select | app/backend/routes/sessions.py:96-119 | the reference selection keeps exactly the records matching every given filter |
| SessionStore.GetSessionsIsSelect | app/backend/routes/sessions.py:105-119 | the four successive comprehensions equal the one-pass selection, table order kept |
| SessionStore.KeepAll | app/backend/routes/sessions.py:105 | a condition every record passes keeps the whole list |
| SessionStore.GetSessionsUnfiltered | app/backend/routes/sessions.py:105-119 | with no filter given every record is returned, in order |
| SessionStore.Merged | app/backend/routes/sessions.py:186-188 | the updated record has the same keys; the id is kept; every other key present in the request takes its value; the rest are unchanged |
| SessionStore.MergeLoop | app/backend/routes/sessions.py:186-188 | the loop over the request keys, in any order, leaves exactly the merged record |
| SessionStore.NotesStep | app/backend/routes/sessions.py:218-221 | falsy notes are replaced by the new notes; truthy text notes grow by a blank line and the f-string text of the new notes; truthy list notes grow by that text's characters; any other truthy notes raise TypeError; no other key changes |
| SessionStore.StepsStep | app/backend/routes/sessions.py:227-231 | without the key in the request nothing changes; a stored list grows by what iterating the requested value yields (items, characters, dict keys), a scalar value raises TypeError, and a stored non-list has no `extend` |
| SessionStore.ProgressStep | app/backend/routes/sessions.py:224-225 | the progress notes are replaced exactly when the request carries them |
| SessionStore.Observed | app/backend/routes/sessions.py:218-231 | the record after the steps, or after those that ran before a failure, still has every key the routes read and gains no key besides `progressNotes` |
| SessionStore.ObservedOnTextAndLists | app/backend/routes/sessions.py:218-231 | for text notes, list-valued stored steps and iterable requested steps nothing fails: the notes grow after a blank line or become the new notes, progress notes are replaced, both step lists grow at the end by what the request's values yield, nothing else changes |
| SessionStore.Store.constructor | app/backend/routes/sessions.py:8-84 | the table starts as the given complete records |
| SessionStore.Store.Find | app/backend/routes/sessions.py:87-91 | the position of the first record with the id, or none |
| SessionStore.Store.List | app/backend/routes/sessions.py:95-119 | 200 with exactly the records matching every given filter, in table order |
| SessionStore.Store.Get | app/backend/routes/sessions.py:121-129 | 404 for an unknown id, otherwise 200 with the first record carrying it |
| SessionStore.Store.Create | app/backend/routes/sessions.py:131-173 | 400 naming the first missing required field with the table unchanged; otherwise the new record is appended and returned with 201 |
| SessionStore.Store.Update | app/backend/routes/sessions.py:175-190 | 404 and no change for an unknown id; otherwise that record alone becomes its merge with the request, which is returned |
| SessionStore.Store.Delete | app/backend/routes/sessions.py:192-201 | 404 and no change for an unknown id; otherwise exactly the first record with the id is removed, the others keeping their order |
| SessionStore.Store.Store | app/backend/routes/sessions.py:218-231 | record `i` is replaced and nothing else changes |
| SessionStore.Store.AddObservations | app/backend/routes/sessions.py:203-233 | 404 for an unknown id, 400 with no change without notes, otherwise the record becomes `Observed`'s result and the reply is it or the exception that stopped the steps |
| SessionStore.Store.Observe | app/backend/routes/sessions.py:217-233 | each step is kept as it is made, so a failure leaves the earlier steps in place |
| SessionStore.Store.GenerateAnalysis | app/backend/routes/sessions.py:235-294 | 404 for an unknown id; 400 with no change when the notes are falsy; otherwise the fixed analysis replaces the record's AI suggestions and is returned |
| JobMatchingService.Ratio | app/backend/services/job_matcher_/job_matching_service.py:39-41 | a score between 0 and 100, 0 when nothing is required |
| JobMatchingService.RatioMeaning | app/backend/services/job_matcher_/job_matching_service.py:41 | the truncated percentage while the matches do not exceed the total, 100 once they reach it |
| JobMatchingService.CountOf | app/backend/services/job_matcher_/job_matching_service.py:40-41 | a falsy total counts 0; an iterable total counts what iterating it yields (a dict's keys, a string's characters); the total is positive exactly when it is truthy |
| JobMatchingService.CoveredNeeds | app/backend/services/job_matcher_/job_matching_service.py:66-67 | no needs give no covered needs; with texts, as many covered needs as needs some available item occurs in, ignoring case |
| AISearchService.MatchingSkillsCount | app/backend/services/job_matcher_/job_matching_service.py:38 | the number of matching skills is the number of the participant's skills equal under `==` to one in the job's list, repeats counted |
| JobMatchingService.TextItems | app/backend/services/job_matcher_/job_matching_service.py:45-64 | a well-formed field (a list, string or dict iterating to texts, or absent) yields exactly what iterating it with an empty-list default yields, all texts |
| JobMatchingService.SkillScoreMeaning | app/backend/services/job_matcher_/job_matching_service.py:28-41 | on well-formed data, the participant's technical then soft skills the job requires, out of the required ones |
| JobMatchingService.NearbyMeaning | app/backend/services/job_matcher_/job_matching_service.py:43-51 | on well-formed data, the location scores exactly when some preferred location occurs in the job's, ignoring case |
| JobMatchingService.LikedMeaning | app/backend/services/job_matcher_/job_matching_service.py:53-59 | the industry scores exactly when the job's industry, empty when absent, equals a preferred one under `==` |
| JobMatchingService.LikedBoolInt | app/backend/services/job_matcher_/job_matching_service.py:55-58 | an industry `0` matches a preferred `False`, as `==` makes them equal |
| JobMatchingService.AccommodationScoreMeaning | app/backend/services/job_matcher_/job_matching_service.py:61-69 | on well-formed data, the covered needs out of the needed ones |
| JobMatchingService.ScoresOfWellFormed | app/backend/services/job_matcher_/job_matching_service.py:27-69 | well-formed data always scores |
| JobMatchingService.Elements | app/backend/services/job_matcher_/job_matching_service.py:72-101 | four elements in the order skills, location, industry, accommodations, each scored 0 to 100 from the matching count |
| JobMatchingService.MatchScore | app/backend/services/job_matcher_/job_matching_service.py:103-108 | the truncated weighted average with weights 2/5, 1/5, 1/5, 1/5, between 0 and 100 |
| JobMatchingService.WeightedFour | app/backend/services/job_matcher_/job_matching_service.py:105 | the weighted sum over four elements is each score times its category's weight |
| JobMatchingService.MatchScoreExtremes | app/backend/services/job_matcher_/job_matching_service.py:103-108 | a perfect profile scores 100 and an empty one 0 |
| JobMatchingService.ElementsJson | app/backend/services/job_matcher_/job_matching_service.py:72-101 | one dict per element, in order |
| JobMatchingService.CompatibilityDocShape | app/backend/services/job_matcher_/job_matching_service.py:107-110 | the result has exactly the match score, between 0 and 100, and the four elements |
| JobMatchingService.SkillScoreClamped | app/backend/services/job_matcher_/job_matching_service.py:38-41 | a skill listed twice counts twice, and the clamp keeps the skill score at 100 |
| JobMatchingService.CalculateCompatibility | app/backend/services/job_matcher_/job_matching_service.py:14-110 | the scores computed, then the result built, or the exception malformed data raises; dict and string fields are iterated as Python iterates them |
| JobMatchingService.ComputeScores | app/backend/services/job_matcher_/job_matching_service.py:27-69 | the step-by-step reading, with the location loop stopping at the first match, gives exactly the specified scores |
| JobMatchingService.Picked | app/backend/services/job_matcher_/job_matching_service.py:154-163 | the job reference has exactly the listed keys with the job's values; a missing key raises KeyError |
| JobMatchingService.MatchDoc | app/backend/services/job_matcher_/job_matching_service.py:137-171 | the match is suggested and system-generated, carries the job id, the score, the elements and both references, and takes its creation time, update time and single history entry's date from three separate clock readings |
| JobMatchingService.Assembled | app/backend/services/job_matcher_/job_matching_service.py:137-171 | a match is built exactly when the job has its id and every reference field, and then it is a fresh suggestion with its own three clock readings |
| JobMatchingService.SuggestionSucceeds | app/backend/services/job_matcher_/job_matching_service.py:132-171 | a suggestion is made exactly when the compatibility computes and the job has its id and reference fields |
| JobMatchingService.SuggestionsFresh | app/backend/services/job_matcher_/job_matching_service.py:131-175 | one fresh suggested match per ranked job, the k-th with the k-th fresh id and the clock readings 3k, 3k+1 and 3k+2 of the call |
| JobMatchingService.SuggestOne | app/backend/services/job_matcher_/job_matching_service.py:132-173 | the loop body gives exactly the specified suggestion |
| JobMatchingService.SuggestAll | app/backend/services/job_matcher_/job_matching_service.py:131-175 | the loop over the ranked jobs gives exactly the specified suggestions: one per job in order, or the first failing job's exception |
| JobMatchingService.JobMatchingService.constructor | app/backend/services/job_matcher_/job_matching_service.py:10-12 | the service holds the search service |
| JobMatchingService.JobMatchingService.FindMatchesForParticipant | app/backend/services/job_matcher_/job_matching_service.py:112-175 | the search's error propagates; otherwise one suggestion per ranked job, in order, each taking the next three clock readings |
| JobMatchingService.JobMatchingService.FindMatchesForJob | app/backend/services/job_matcher_/job_matching_service.py:177-194 | always the empty list |
| JobMatchesMain.ProcessProfile | app/backend/services/job_matches/main.py:23-37 | a present field is taken as given; missing skills become no technical and no soft skills |
| JobMatchesMain.ProcessProfileDefaults | app/backend/services/job_matches/main.py:23-37 | a profile without any of the nine fields is processed to all defaults, whatever else it holds |
| JobMatchesMain.TextPart | app/backend/services/job_matches/main.py:40-49 | only a string can be joined, and it is joined as itself |
| JobMatchesMain.DirectParts | app/backend/services/job_matches/main.py:41-43 | the goal, language and transportation values can be joined exactly when all three are strings; otherwise the join raises TypeError |
| JobMatchesMain.QueryErrorOrder | app/backend/services/job_matches/main.py:40-49 | the list is built before it is joined: a failing inner join is the error raised, and only when all five succeed does a non-string goal, language or transportation raise TypeError |
| JobMatchesMain.QuerySeparators | app/backend/services/job_matches/main.py:40-49 | the search text holds all eight parts with exactly seven separating spaces, empty parts included |
| JobMatchesMain.QueryOfEmptyProfile | app/backend/services/job_matches/main.py:40-49 | an empty profile gives seven spaces |
| JobMatchesMain.QueryOfWellTyped | app/backend/services/job_matches/main.py:40-51 | a profile has a search text exactly when its three direct values are strings, its skills are a dict, and the five joined values iterate to strings |
| JobMatchesMain.RowOf | app/backend/services/job_matches/main.py:90-98 | a missing field of a hit reads `N/A` and a missing score 0 |
| JobMatchesMain.Rows | app/backend/services/job_matches/main.py:88-98 | one row per hit, in order |
| JobMatchesMain.ByScoreDescIsComparator | app/backend/services/job_matches/main.py:101 | ordering by score, highest first, is a total preorder |
| JobMatchesMain.RankedNumbered | app/backend/services/job_matches/main.py:103-124 | the total is the number of hits and of matches, numbered 1 to n over the sorted rows |
| JobMatchesMain.RankedOrdered | app/backend/services/job_matches/main.py:101-118 | the matches run from the highest score to the lowest |
| JobMatchesMain.RankedReorders | app/backend/services/job_matches/main.py:101 | sorting is a permutation of the rows and keeps equal scores in search order |
| JobMatchesMain.Run | app/backend/services/job_matches/main.py:64-132 | a failing search text is the error; otherwise the ranked result of the search for that text |
| TextAnalysis.ProcessAudio | app/backend/routes/text_analysis.py:22-37 | 400 for a body without a truthy audio link, 500 for a body that is not a dict, otherwise the analysis's answer |
| TextAnalysis.SimpleTranscriptEntries | app/backend/routes/text_analysis.py:85-86 | one transcript entry per combined phrase, in order, holding exactly that phrase's text |
| TextAnalysis.SimpleTranscriptEmpty | app/backend/routes/text_analysis.py:85 | an answer without combined phrases gives an empty transcript |
| TextAnalysis.TranscriptKeepsText | app/backend/routes/text_analysis.py:85-98 | the transcript keeps exactly the texts the combined document joins |
| TextAnalysis.SentenceEntries | app/backend/routes/text_analysis.py:138-149 | one entry per extractive sentence, in order, with that sentence's own sentiment |
| TextAnalysis.GatherAllFacts | app/backend/routes/text_analysis.py:115-153 | at most ten key phrases; the summaries are every abstractive summary in order; one entry per extractive sentence |
| TextAnalysis.GatherAllKeyPhrases | app/backend/routes/text_analysis.py:125-126 | the key phrases are those of the last key-phrase result, cut to ten |
| TextAnalysis.AnalyzeText | app/backend/routes/text_analysis.py:88-162 | no documents give an empty dict; otherwise the dict of what the loop gathered from the one document's results |
| TextAnalysis.TextsLabelled | app/backend/routes/text_analysis.py:184-191 | the texts of the sentences with one label, no more than the sentences |
| TextAnalysis.LabelledTotal | app/backend/routes/text_analysis.py:184-191 | each sentence goes into at most one of the two lists; the lists hold exactly the labelled sentences |
| TextAnalysis.FormatAnalysisResults | app/backend/routes/text_analysis.py:165-193 | the loop gives exactly the formatted results: None for a non-dict, topics, the joined summary and the split sentences |
| TextAnalysis.SpeechRegion | app/backend/routes/text_analysis.py:200 | the region holds no dot |
| TextAnalysis.SpeechRegionOf | app/backend/routes/text_analysis.py:200 | an endpoint `https://<region>.<rest>` gives back the region |
| ParticipantsRoutes.FullName | app/backend/routes/participants.py:53-54 | two texts are joined with one space; any other value enters as its f-string text (Python's `repr` for lists and dicts) |
| ParticipantsRoutes.CreatedFullName | app/backend/routes/participants.py:52-58 | the stored participant keeps a given `fullName`, otherwise gets the names joined by a space; every other request field is stored as sent |
| ParticipantsRoutes.CreateParticipantRoute | app/backend/routes/participants.py:41-58 | 400 naming the first missing required field and nothing stored; otherwise 201 with the stamped participant stored under a fresh id, or the repository's exception |
| ParticipantsRoutes.GetParticipantRoute | app/backend/routes/participants.py:31-39 | 200 with the stored participant exactly when a non-empty one is stored; 404 otherwise |
| ParticipantsRoutes.UpdateParticipantRoute | app/backend/routes/participants.py:60-77 | 404 and nothing written for a missing participant; otherwise the merged document is stored and returned, or 500 when the update does not keep the id |
| ParticipantsRoutes.DeleteParticipantRoute | app/backend/routes/participants.py:79-94 | 404 and nothing removed for a missing participant; otherwise 200 and exactly that participant removed |
| ParticipantsRoutes.GetParticipantSessionsRoute | app/backend/routes/participants.py:96-107 | 404 for a missing participant, otherwise 200 with the participant's sessions |
| ParticipantsRoutes.GetParticipantJobMatchesRoute | app/backend/routes/participants.py:109-120 | 404 for a missing participant, otherwise 200 with its job matches (empty when none) |
| JobsRoutes.CreatedJobFields | app/backend/routes/jobs.py:53-64 | the stored job has the request's posting date, skills and remote option or their defaults, and every other request field as sent |
| JobsRoutes.CreateJobRoute | app/backend/routes/jobs.py:41-65 | 400 naming the first missing required field and nothing stored; otherwise 201 with the defaulted job stored under a fresh id |
| JobsRoutes.ApplyJobDefaults | app/backend/routes/jobs.py:53-61 | the request after the three defaulting assignments is the request with the posting date, empty skills and no remote option filled in where absent |
| JobsRoutes.CreateWithDefaults | app/backend/routes/jobs.py:53-65 | past the required-field check: 201 with the defaulted job stored under its id, or the repository's exception and nothing stored |
| JobsRoutes.GetJobRoute | app/backend/routes/jobs.py:31-39 | 200 with the stored job exactly when a non-empty one is stored; 404 otherwise |
| JobsRoutes.UpdateJobRoute | app/backend/routes/jobs.py:67-84 | 404 and nothing written for a missing job; otherwise the merged job is stored and returned, or 500 when it does not keep the id |
| JobsRoutes.DeleteJobRoute | app/backend/routes/jobs.py:86-101 | 404 and nothing removed for a missing job; otherwise 200 and exactly that job removed |
| JobsRoutes.SkillsOf | app/backend/routes/jobs.py:113 | no skills exactly for an absent or empty parameter; otherwise comma-free pieces that join back to the parameter |
| JobsRoutes.SkillsRoundTrip | app/backend/routes/jobs.py:113 | a list of comma-free skills sent joined by commas is read back as sent (except the list of one empty skill) |
| JobsRoutes.SearchJobsRoute | app/backend/routes/jobs.py:103-123 | 200 with the container's answer to the repository's search query built from the parameters |
| JobMatchesRoutes.ListingOf | app/backend/routes/job_matches.py:19-31 | a participant filter wins over a job filter, which wins over a status filter; an empty parameter counts as absent |
| JobMatchesRoutes.CompatibilityIn | app/backend/routes/job_matches.py:64-69 | a compatibility exists only for two string ids naming stored documents |
| JobMatchesRoutes.PreparedFields | app/backend/routes/job_matches.py:56-73 | status and source take their defaults only when absent; a given score and elements are kept; a truthy compatibility supplies both; every other field is kept |
| JobMatchesRoutes.PreparedWithScoring | app/backend/routes/job_matches.py:64-73 | a compatibility from the scoring always carries both fields, so preparing never fails |
| JobMatchesRoutes.CreateAnswered | app/backend/routes/job_matches.py:75-77 | 201 with the new match stored under its fresh id, or the exception with nothing stored |
| JobMatchesRoutes.CreateJobMatchRoute | app/backend/routes/job_matches.py:45-77 | 400 naming a missing id and nothing stored; otherwise the prepared request is created |
| JobMatchesRoutes.Compatibility | app/backend/routes/job_matches.py:66-69 | the repository's compatibility for the request's ids, none for an id that is not a string |
| JobMatchesRoutes.GetJobMatchRoute | app/backend/routes/job_matches.py:35-43 | 200 with the stored match exactly when a non-empty one is stored; 404 otherwise |
| JobMatchesRoutes.UpdateJobMatchRoute | app/backend/routes/job_matches.py:79-95 | 404 and nothing written for a missing match; otherwise the merged match is stored, 200 with it, or 500 when it is empty |
| JobMatchesRoutes.UpdateJobMatchStatusRoute | app/backend/routes/job_matches.py:97-119 | 400 and nothing written without a status; otherwise the repository's status change with its history entry, 500 when nothing comes back |
| JobMatchesRoutes.LimitOf | app/backend/routes/job_matches.py:124-128 | the limit is the integer `int` reads (surrounding blanks, a sign, digits with single underscores between them), or 10 when absent or not an integer |
| JobMatchesRoutes.LimitOfNumber | app/backend/routes/job_matches.py:124-128 | an integer written out is read back as itself |
| JobMatchesRoutes.LimitOfUnderscored | app/backend/routes/job_matches.py:125 | `?limit=2_0` is read as twenty, as Python's `int` reads it |
| JobMatchesRoutes.FailedCompatibilityScoresZero | app/backend/routes/job_matches.py:143-145 | a job without compatibility scores 0 with no elements and keeps every other field |
| JobMatchesRoutes.RankedSuggestionsOrdered | app/backend/routes/job_matches.py:134-148 | the answer is a permutation of the scored jobs, one per suggestion, ordered by score from highest |
| JobMatchesRoutes.GetJobSuggestionsRoute | app/backend/routes/job_matches.py:121-150 | corrected, see ## Findings: the answer is the scored and ranked repository suggestions for the parsed limit |
| JobMatchesRoutes.SuggestionCreatedFields | app/backend/routes/job_matches.py:165-172 | the created suggestion is `suggested`, `system-generated`, for the two ids, with the compatibility's score and elements |
| JobMatchesRoutes.CreateJobSuggestionRoute | app/backend/routes/job_matches.py:152-176 | 400 and nothing stored without a compatibility; otherwise 201 with the suggested match stored |
| CallCenterRoute.ValidateCallCenterData | app/backend/routes/test/call_center.py:9-31 | an empty body is refused with "No data provided"; the check raises exactly for a truthy body that is not a dict |
| CallCenterRoute.ValidationIff | app/backend/routes/test/call_center.py:9-31 | a body is valid exactly when it is a non-empty dict passing every check; valid means no message and no code, invalid means both, code 400 |
| CallCenterRoute.FirstFailureWins | app/backend/routes/test/call_center.py:18-26 | checks are tried in order and the first failing one gives the message |
| CallCenterRoute.Params | app/backend/routes/test/call_center.py:59-66 | the parameters have the defaults' keys and the request's keys |
| CallCenterRoute.ParamsOverride | app/backend/routes/test/call_center.py:66 | a request key overrides its default; every other default survives |
| CallCenterRoute.StereoFlagIgnored | app/backend/routes/test/call_center.py:28-29 | the validated `use_stereo` flag never changes the `use_stereo_audio` default |
| CallCenterRoute.AnalyzeCallAsWritten | app/backend/routes/test/call_center.py:33-75 | the handler as written always answers: an invalid body gets its 400, anything else a 500 |
| CallCenterRoute.AnalyzeCallAlwaysFails | app/backend/routes/test/call_center.py:69 | every valid request gets the 500 TypeError answer |
| CallCenterRoute.AnalyzeCall | app/backend/routes/test/call_center.py:33-75 | the corrected handler always answers, passing valid parameters to the pipeline |
| CallCenterRoute.AnalyzeCallPasses | app/backend/routes/test/call_center.py:51-71 | an invalid body is answered as before; a valid one gets the pipeline's answer for the request over the defaults |
| CallCenter.LastPiece | app/backend/services/call_center/main.py:71 | the last piece of a split holds no separator |
| CallCenter.LastPieceOf | app/backend/services/call_center/main.py:71 | the last piece of a text ending in a separator and an id is that id |
| CallCenter.TranscriptionId | app/backend/services/call_center/main.py:69-77 | the id is the link's last segment; it is refused exactly when that segment does not parse as a UUID |
| CallCenter.RfcTextParses | app/backend/services/call_center/main.py:73-75 | every id in the textual form of section 3 of RFC 4122 is accepted |
| CallCenter.TranscriptionIdOfLink | app/backend/services/call_center/main.py:69-77 | a link ending in an RFC 4122 id gives that id back |
| CallCenter.TranscriptionDone | app/backend/services/call_center/main.py:79-85 | raises exactly for a `failed` status and is done exactly for `succeeded`, ignoring case |
| CallCenter.TranscriptionDoneAnyCase | app/backend/services/call_center/main.py:82-85 | `Succeeded` is done, `FAILED` raises, `Running` is not done |
| CallCenter.TranscriptionUri | app/backend/services/call_center/main.py:99-105 | raises exactly when no entry is a transcription; otherwise the first transcription entry's link |
| CallCenter.SpeakerNumber | app/backend/services/call_center/main.py:115-124 | speakers count from 1 and channels from 0; a phrase with neither raises |
| CallCenter.TranscriptionPhrasesShape | app/backend/services/call_center/main.py:111-127 | phrase i has id i, the texts of its first best reading, the speaker rule and its offset |
| CallCenter.ByOffsetIsComparator | app/backend/services/call_center/main.py:268 | ordering by offset is a total preorder |
| CallCenter.PhrasesByOffset | app/backend/services/call_center/main.py:267-268 | the phrases are sorted by offset and are a permutation of the transcription's phrases |
| CallCenter.Documents | app/backend/services/call_center/main.py:148-155 | one document per phrase, in order, with its id, language and text |
| CallCenter.Chunks | app/backend/services/call_center/main.py:156-158 | every chunk holds between one and `n` documents |
| CallCenter.ChunksFlatten | app/backend/services/call_center/main.py:156-158 | the chunks put back together are the documents in order |
| CallCenter.Resolve | app/backend/services/call_center/main.py:159-161 | one result per returned document when none fails |
| CallCenter.SentimentChunks | app/backend/services/call_center/main.py:156-158 | every chunk sent holds at most ten documents and the chunks are all documents in order |
| CallCenter.ResolveResults | app/backend/services/call_center/main.py:159-161 | each returned document gives one result, in order, with the speaker and offset of the phrase its id names |
| CallCenter.PhraseDataOf | app/backend/services/call_center/main.py:149-150 | with distinct ids, each phrase's id maps to its speaker and offset |
| CallCenter.GetSentimentAnalysis | app/backend/services/call_center/main.py:142-162 | the loops build exactly the specified results, the first failure escaping |
| CallCenter.ResolvePrefixFails | app/backend/services/call_center/main.py:159-161 | once a prefix of the returned documents fails, the whole resolution fails with that error |
| CallCenter.ByOffsetFieldOrdered | app/backend/services/call_center/main.py:164-170 | the field list follows the results in offset order, stable for ties, one entry per result |
| CallCenter.WithScore | app/backend/services/call_center/main.py:174-175 | every reading of a phrase gets the score and nothing else changes |
| CallCenter.MergedScores | app/backend/services/call_center/main.py:172-176 | every reading of phrase i carries score i; a phrase with readings beyond the scores raises |
| CallCenter.MergeScores | app/backend/services/call_center/main.py:172-176 | the merge loop gives exactly the specified merge |
| CallCenter.GetSimpleOutput | app/backend/services/call_center/main.py:178-186 | the text grown line by line is the concatenation of the phrase blocks |
| CallCenter.BlockBreaks | app/backend/services/call_center/main.py:180-185 | a phrase block has three lines, four when it has a sentiment |
| CallCenter.SimpleOutputLines | app/backend/services/call_center/main.py:178-186 | the output has three lines per phrase plus one per phrase that has a sentiment |
| CallCenter.ConfigFromEnvironment | app/backend/services/call_center/main.py:225-249 | without a non-empty `AZURE_AI_KEY` the configuration comes from the command line |
| CallCenter.WithoutSchemeOf | app/backend/services/call_center/main.py:229-235 | an endpoint with the `https://` scheme once loses it |
| CallCenter.EnvironmentConfig | app/backend/services/call_center/main.py:225-246 | with a non-empty `AZURE_AI_KEY` the configuration is read from the environment: that key, language `en` and locale `en-US` by default, stereo off by default, an input URL exactly when `INPUT_URL` is set |
| UserConfigHelper.LowerAll | app/backend/services/call_center/user_config_helper.py:16 | one lowered argument per argument, in order |
| UserConfigHelper.CmdOptionExistsIff | app/backend/services/call_center/user_config_helper.py:26-27 | an option exists exactly when some argument equals it ignoring case |
| UserConfigHelper.IndexOf | app/backend/services/call_center/user_config_helper.py:17 | the index of the first exact occurrence of the option |
| UserConfigHelper.GetCmdOption | app/backend/services/call_center/user_config_helper.py:14-24 | the argument after the first exact occurrence, None when missing or last; ValueError exactly when the option occurs only in another case |
| UserConfigHelper.GetCmdOptionValue | app/backend/services/call_center/user_config_helper.py:14-20 | an option written exactly and followed by a value yields that value |
| UserConfigHelper.Required | app/backend/services/call_center/user_config_helper.py:31-54 | a required option succeeds exactly when it is found with a value |
| UserConfigHelper.UserConfigRequiresAll | app/backend/services/call_center/user_config_helper.py:29-54 | a configuration is read only when the key, the region, the language endpoint and the input are all given; otherwise the first one missing, in that order, is the error reported (the input once the language and locale options are read) |
| UserConfigHelper.UserConfigShape | app/backend/services/call_center/user_config_helper.py:44-65 | the speech endpoint is the region plus the fixed host, the input is given, language and locale default, stereo is whether `--stereo` occurs |
| Services.EnvSettingsSource | app/services/__init__.py:22-26 | a setting is present exactly when some environment variable with the prefix names it (prefix cut, lowercased), and its value is the last such variable's |
| Services.ServiceName | app/services/__init__.py:28 | the service name is no longer than the prefix, has no `_` at either end and no upper-case letter |
| Services.ServiceNameOfPrefix | app/services/__init__.py:28 | a prefix `NAME_` gives the lowercased `name`, inner underscores kept |
| Services.FromEnv | app/services/__init__.py:17-28 | the configuration is built exactly when the merged settings name no `service_name`, no field the class lacks, and every required field; it carries the prefix's service name |
| Services.KwargsOverride | app/services/__init__.py:28 | an explicit keyword argument overrides the environment; every other setting comes from the environment |
| Services.ConfigFromEnv | app/services/__init__.py:17-28 | the loop over the environment and the class construction give exactly `FromEnv` |
| Services.NewService | app/services/__init__.py:34-39 | a given configuration is kept; without one the loader's configuration is taken, or its exception propagates |
| Services.ConfiguredWhenGiven | app/services/__init__.py:39-47 | a client given a configuration is configured; with the base loader construction raises NotImplementedError |
| ServiceManagement.Lookup | app/services/service_manager.py:30-40 | the client registered under the name, None exactly when the name is not registered |
| ServiceManagement.RegisterThenLookup | app/services/service_manager.py:20-40 | after a registration the name gives the new client and every other name what it gave before |
| ServiceManagement.Typed | app/services/service_manager.py:42-63 | the client is returned exactly when it is registered and an instance of the type; ValueError otherwise |
| ServiceManagement.RegisteredTyped | app/services/service_manager.py:42-63 | a registered client is returned for a class it is an instance of and refused with ValueError for any other |
| ServiceManagement.ServiceManager.constructor | app/services/service_manager.py:17-18 | a new manager has no client registered |
| ServiceManagement.ServiceManager.Register | app/services/service_manager.py:20-28 | the name now maps to the client, replacing any earlier one; nothing else changes |
| ServiceManagement.ServiceManager.GetService | app/services/service_manager.py:30-40 | the result is `Lookup` on the registered clients |
| ServiceManagement.ServiceManager.GetTypedService | app/services/service_manager.py:42-63 | the result is `Typed` on the registered clients |
| ServiceManagement.DefaultsRegistered | app/services/service_manager.py:73-94 | each default client is registered under its name exactly when its constructor succeeds; at most three clients |
| ServiceManagement.CreateDefault | app/services/service_manager.py:65-94 | a fresh manager holding exactly the default clients whose constructors succeed |
| OpenAIModels.ToDict | app/services/openai/models.py:15-20 | the dict has exactly the keys role and content, holding the message's values |
| OpenAIModels.MessageRoundTrip | app/services/openai/models.py:15-20 | reading a message back from its dict gives the same message |
| OpenAIModels.ChoiceOf | app/services/openai/models.py:42-49 | a choice is read exactly when it and its message are dicts (`get` raises otherwise) |
| OpenAIModels.FromResponseChoices | app/services/openai/models.py:38-57 | one choice per response choice in order, each read field by field with its defaults; id and usage default to empty |
| OpenAIModels.FromEmptyResponse | app/services/openai/models.py:53-57 | a response without fields reads as an empty completion |
| OpenAIModels.FromResponseRejects | app/services/openai/models.py:41-51 | a choice that is not a dict makes the reading fail |
| OpenAIModels.Content | app/services/openai/models.py:59-64 | empty without choices, otherwise the first choice's content |
| OpenAIModels.ContentOfResponse | app/services/openai/models.py:38-64 | the content of a read response is its first choice's message content, empty when missing |

## Left out

- The job-match list queries are not modelled. These are `get_all_job_matches` and the listings by participant, by job and by status (app/backend/db/repositories/job_match_repository.py:33-40, 159-196). They only pass fixed query texts to the container. The route's choice between them is modelled (`JobMatchesRoutes.ListingOf`).
- `get_participant_sessions` and `get_session_count`'s query are only pass-throughs of fixed query texts. The count's result enters the model as a supplied function.
- Database semantics are not modelled. The query engine's evaluation of the SQL text is a supplied function from text and parameters to documents. Only the text and the parameters the code builds are modelled.
- The connection set-up in the repository constructors is not modelled (the container configuration names only the sessions container); each constructor is modelled as taking its containers as given.
- Clocks, `uuid4` and `random` are parameters:
  - `_generate_sample_jobs` is not modelled;
  - `random.shuffle` is any permutation.
- Floating point is not modelled:
  - scores and ratios use exact integer floor division, so Python's `int()` of a float result can differ by 1 from the model;
  - `azure_score` is an opaque integer.
- Time zones and JS `Date` are not modelled:
  - timestamps are integers given by a supplied parse function;
  - the browser's time-zone offset is a parameter.
- The polling loop `wait_for_transcription` (app/backend/services/call_center/main.py:87-92) is not modelled. It is timing, not sequential logic. The same goes for overlapping list fetches on the frontend.
- `helper.chunk`, `rest_helper` and the external Speech, Text Analytics, Search, OpenAI and Document Intelligence clients are not part of this model. Their answers are parameters.
- The file write of `print_full_output` is not modelled. Only the text it produces is modelled.
- Flask wiring, blueprints, CORS, the app entry points and `routes/call_center.py` are not modelled. The last only calls `run()` without arguments.
- The demo and layout pages, the `api/*.ts` wrappers, rendering, toasts and React effects are not modelled. Page handlers are state transitions of the list-page and form classes.
- No view-edit-save logic exists on the detail pages, so none is modelled.
- Text case is ASCII only: Python `lower()` and JS `toLowerCase` lower only `A`-`Z`, and JS `toUpperCase` in `Suggestions.Capitalize` raises only `a`-`z`.
- Strings.ParseInt: Python's `int` also reads Unicode decimal digits, such as Arabic-Indic digits; the model reads only the ASCII digits `0`-`9`, so `JobMatchesRoutes.LimitOf` falls back to 10 for such a text.
- ListView.CompareRows: a missing date or salary field compares as 0. In the pages, `new Date(undefined)` and `undefined - x` are NaN, which `sort` takes as "equal"; that comparator is not transitive, so with such rows the browser's order is implementation-defined and the ordering and stability guarantees hold of the model only. A `null` field does compare as 0 in the pages too.
- Error bodies carry the exception's class name where the routes send `str(e)`, the exception's message (app/backend/routes/text_analysis.py:37, app/backend/routes/test/call_center.py:75), because the messages of library exceptions are not part of this model.
- CallCenter.TranscriptionUri: when no transcription entry exists the model raises a plain `Exception`. The source's message formats `transcription_files['text']`, which may itself raise a KeyError first; the JSON `rest_helper` returns is not part of this model, so which exception escapes is not decided here.
- Python dict insertion order is not modelled. Dicts are maps, so the key order of the JSON objects the routes send back is not modelled.
- Json.Items: iterating a dict yields its keys in ascending order, not in Python's insertion order, because a map keeps no order. Only the order of the keys differs, not which keys are yielded or how many.
- Json.Show: Python's `repr` leaves printable non-ASCII characters as they are and escapes non-printable ones. The model escapes only the C0 and C1 control characters and DEL, and keeps every other character.
- Strings.Less: compares texts by code point. JavaScript's `<` on strings compares UTF-16 code units, which orders characters outside the Basic Multilingual Plane differently.
- ListView.ListPage.DateChanged: models the corrected date selection; the behaviour as written is `DateFilter.FilterDateAsWrittenShiftsEast` under "## Findings".
- ListView.ListPage.FilterParams: sends the corrected filter date; the date as written is `DateFilter.FilterDateAsWrittenShiftsEast` under "## Findings".
- JobMatchesRoutes.GetJobSuggestionsRoute: answers with the corrected ranked suggestions; the empty answer as written is `JobRepository.SuggestionsAsWrittenEmpty` under "## Findings".
- JobMatchesMain.Run: the `save_to_file` branch (app/backend/services/job_matches/main.py:127-130) is not modelled. It writes the result with `json.dump` and prints a message, and neither changes the result returned.
- Aliasing is not modelled. The routes mutate request dicts and stored records in place, and the model passes them as values. A caller that keeps a reference to the request does not see those changes in the model.
- The create routes assume their body is a JSON object. A non-object body is not modelled.
- SessionStore.Store.Update: the request body is a JSON object; a non-object body, on which `data.keys()` fails, is not modelled.
- ParticipantsRoutes.UpdateParticipantRoute: the request body is a JSON object; a non-object body is not modelled.
- JobsRoutes.UpdateJobRoute: the request body is a JSON object; a non-object body is not modelled.
- JobMatchesRoutes.UpdateJobMatchRoute: the request body is a JSON object; a non-object body is not modelled.
- ServiceConfig subclasses are described only by their field names and which fields are required. Field types and dataclass defaults are not modelled, because the settings stay JSON values.
- CallCenter.TranscriptionId: `uuid.UUID` also accepts `urn:uuid:` prefixes, braces and underscores. The model accepts only 32 hexadecimal digits with any hyphens.
- JobMatchesRoutes.UpdateJobMatchStatusRoute: a non-text status or notes is modelled as an escaping TypeError, rather than being passed on to the repository.
- ListView: search over a field that is not text treats the field as the empty text.

## Findings

| source | as written | input that shows it | evidently intended | confidence | as-written member | corrected member |
|---|---|---|---|---|---|---|
| app/frontend/src/app/sessions/page.tsx:293-311 | the picked date is set field by field on today's date, and then sent as `toISOString().split("T")[0]` at lines 211-213 | picking 2024-02-10 on a 31st, because `setMonth(1)` rolls over into March; or any date picked east of UTC, which is sent as the day before | the date filter sends the `YYYY-MM-DD` text that was picked | not executed | DateFilter.FilterDateAsWrittenShiftsEast | DateFilter.FilterDate |
| app/backend/db/repositories/job_repository.py:236 | `self.job_matching` is never assigned in `__init__` (lines 8-26), so the AttributeError is caught and `[]` is returned | any participant with at least one active job | the active jobs annotated with their compatibility and ranked by match score | not executed | JobRepository.SuggestionsAsWrittenEmpty | JobRepository.SuggestionsRanked |
| app/backend/routes/test/call_center.py:69 | `run(params)` calls a `run` that takes no argument (app/backend/services/call_center/main.py:200) | any valid request, such as `{"input_audio_url": "https://x/a.wav"}` | the pipeline runs with the request's parameters over the defaults | not executed | CallCenterRoute.AnalyzeCallAlwaysFails | CallCenterRoute.AnalyzeCallPasses |
