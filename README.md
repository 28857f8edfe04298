# jira-releaseinfo-export in Dafny

This project models the decision logic of five Jira export scripts. Each
script fetches versions (releases) and issues from a Jira server, turns them
into flat records and writes spreadsheets. The model covers what happens to
the decoded JSON; the HTTP requests and the spreadsheet writing are left out.

- `main_v3.py` is modelled in module `FetcherV3` (`fetcher_v3.dfy`):
  - the custom-field resolver `_get_custom_field_value`;
  - the sprint parser `_parse_single_sprint` and its caller `_extract_sprint_info`, which parses every element of a sprint list and appends a ` (STATE)` suffix;
  - the date check `_is_date_in_range`;
  - the version filter of `fetch_releases`, where a date that does not parse excludes only that version;
  - the issue record of `_extract_issue_data`.
- `main_v4_fetch_all_issues.py` and `main_v6_keyword_match.py` are identical up to line 284. That shared part is modelled once, in `ReleaseExtractor` (`release_extractor.dfy`):
  - `_extract_sprint_info`, which reads only the last list element and adds no state;
  - the version filter of `get_project_versions`, where a date that does not parse ends that project's loop but keeps the versions already kept;
  - the per-issue record of `get_issues_for_version`, where issuetype, priority and status are not null-safe;
  - the version-metadata merge and the column selection of `extract_release_data`.
- `main_v6_keyword_match.py`'s `search_keywords_in_data` is modelled in `KeywordMatch` (`keyword_match.dfy`). It emits one row per (row, searched column, keyword) hit.
- `main.py` is modelled in `FetcherMain` (`fetcher_main.dfy`):
  - the custom-field normaliser and null-safe projections of `extract_issue_data`;
  - the version filter of `get_releases_in_date_range`, where a date that does not parse empties the project's whole result;
  - the project loop and the record merge of `fetch_releases_and_issues_multiple_projects`.
- `custom_field_analyzer.py` is modelled in `FieldAnalyzer` (`field_analyzer.dfy`):
  - the purpose classifier;
  - the sample formatter;
  - the field-list partition of `get_all_field_mappings`;
  - the per-field aggregation of `analyze_issue_custom_fields`;
  - the de-duplication and the stable descending sort of `generate_field_report`.

Shared modules:

- `Json` (`json.dfy`) holds decoded JSON values. It also gives Python's `.get`, `[...]`, iteration, `str()` and `', '.join` on them, each raising where Python raises.
- `Outcome` (`outcome.dfy`) holds `Result` (`Ok` or `Raised`, an exception of any kind). It also has the fold for "a loop inside a `try` whose handler ends the loop".
- `Text` (`text.dfy`) has `str.find`, `in`, `strip`, `split`, `lower`, slicing and `join`.
- `Dates` (`dates.dfy`) is `datetime.strptime(s, '%Y-%m-%d')`. It covers the extended calendar-date form of ISO 8601 (section 4.1.2.2 of ISO 8601:2004) and CPython's leniency about zero-padding.
- `SprintText` (`sprint_text.dfy`) has the legacy sprint descriptor `...Sprint@hash[id=..,name=..,state=..,...]` and facts about `find` on it.
- `Tables` (`tables.dfy`) is the part of a pandas DataFrame the scripts use: ordered columns and one dictionary per row.

How the source's state changes are modelled:

- Each loop that appends, assigns into a dictionary or updates records in place is a `method` with a `while` or `for` loop. Each such method is proved equal to a specification function of its inputs. The properties the source promises are then lemmas about that function.
- Python code that is plain branching is a function.
- The Jira requests, Python's `str()` of a dictionary or list (`repr`) and the order of `dict.items()` (`itemsOf`) are parameters.

How the scripts differ from one another (each difference is modelled as
written in that script):

- Custom-field values:
  - `main_v3.py` takes a dictionary's `value`, with `str()` of the dictionary as the default, so a `value` of None gives None; it has no `name` fallback (main_v3.py:260-261).
  - `main.py` takes `value` if truthy, else `name`, else `''`, and then maps every falsy result to `''` (main.py:171-175).
  - main_v4/main_v6 copy custom values raw (main_v4_fetch_all_issues.py:164-173).
- Sprints:
  - `main_v3.py` parses every element of a sprint list (main_v3.py:307-312). A dictionary gives its name with a ` (STATE)` suffix unless the state is `CLOSED`, or `Sprint <id>` when it has no name (main_v3.py:347-359). A string is parsed when it contains `name=` (main_v3.py:365).
  - main_v4/main_v6 read only the last list element and have no `id` fallback and no state suffix (main_v4_fetch_all_issues.py:195-209; `LatestSprintIdOnly`).
- A release date that does not parse:
  - `main_v3.py` excludes only that version (main_v3.py:75-83);
  - `main.py` returns `[]` for the whole project (main.py:74-87);
  - main_v4/main_v6 stop reading the project's versions and keep those already read (main_v4_fetch_all_issues.py:81, 97-98).
- Null safety: `main_v3.py` (main_v3.py:228-235) and `main.py` (main.py:147-152) project every standard field null-safely. main_v4/main_v6 raise on a None issuetype, priority or status (main_v4_fetch_all_issues.py:158-160).

## Model

| member | source | states |
|---|---|---|
| Outcome.UpToRaise | main_v4_fetch_all_issues.py:72-98 | a loop inside a `try` whose handler ends it outputs at most one value per element |
| Outcome.CollectUpToRaise | main_v4_fetch_all_issues.py:72-98 | the loop that appends each step's output and stops at the first exception yields exactly the outputs of the elements before that exception |
| Outcome.UpToRaiseStops | main_v4_fetch_all_issues.py:97-98 | elements after the first one that raises contribute nothing |
| Outcome.UpToRaiseSound | main_v4_fetch_all_issues.py:76-95 | every output is the value of one element, and no element before it raised |
| Outcome.UpToRaiseAll | main_v4_fetch_all_issues.py:76-95 | when no element raises and each yields a value, the output is those values, one per element, in order |
| Outcome.UpToRaiseComplete | main_v4_fetch_all_issues.py:76-95 | every value an element yields before the first exception is in the output |
| Json.Str | main_v3.py:265 | `str()` of a string is the string itself, and of None is `"None"` |
| Json.StrEmpty | main.py:175 | `str(x)` is empty exactly when `x` is the empty string |
| Json.Get | main.py:146 | `.get(key, default)` succeeds exactly on a dictionary, and then gives the entry or the default |
| Json.NullSafeGet | main_v3.py:228-235 | the guarded projection gives `''` for a missing or falsy entry, the nested entry otherwise, and raises only on a non-dictionary |
| Json.Subscript | main_v4_fetch_all_issues.py:153 | `x[key]` succeeds exactly on a dictionary holding `key`, and gives its entry |
| Json.First | main.py:146 | `x[0]` succeeds exactly on a non-empty list |
| Json.Elements | main.py:69 | a `for` loop over a list yields its elements; it succeeds only on a list, a string or an empty dictionary |
| Json.AllStrings | main_v3.py:237 | succeeds exactly when every element is a string, and then gives those strings in order |
| Json.JoinJson | main_v3.py:237 | `', '.join` of a list of strings gives those strings joined with the separator, in order |
| Json.GetEach | main_v3.py:236 | `[x.get(key, d) for x in items]` succeeds exactly when every item is a dictionary, one result per item |
| Json.SubscriptEach | main_v4_fetch_all_issues.py:153 | `[x[key] for x in items]` succeeds exactly when every item is a dictionary with `key`, one entry per item |
| Text.Find | main_v3.py:368-371 | `str.find` returns -1 when the text does not occur at or after the start, and otherwise the first index where it does |
| Text.ContainsIff | main_v3.py:365 | `sub in s` holds exactly when `sub` occurs somewhere in `s` |
| Text.Strip | main_v3.py:394 | `strip()` is a slice of the input that cuts only white space and neither starts nor ends with white space |
| Text.Split | main_v3.py:39 | `split(',')` gives at least one part, no part contains the separator, and joining the parts with it gives the input back |
| Text.SplitJoin | main_v3.py:39 | splitting the join of separator-free parts gives exactly those parts back |
| Text.SplitTrim | main_v3.py:39 | the project-key list has one stripped entry per comma-separated part, in order |
| Text.Lower | main_v6_keyword_match.py:371 | `lower()` keeps the length and lower-cases each character |
| Text.Take | custom_field_analyzer.py:189 | `s[:n]` is the prefix of length `min(n, len(s))` |
| Text.IntToString | main_v3.py:359 | `str(i)` is non-empty and starts with `-` exactly for a negative number |
| Text.NatToStringRoundTrip | main_v3.py:359 | the digits `str(n)` writes read back as `n` |
| Dates.ParseYmd | main_v3.py:78-80 | a string that `strptime` accepts denotes a valid calendar date |
| Dates.ParseIsoRoundTrip | main_v3.py:78 | every valid date written as `YYYY-MM-DD` parses back to itself |
| Dates.ParseYmdParts | main_v3.py:78 | four year digits, a dash, two month digits, a dash and two day digits of a valid date parse to that date |
| Tables.Present | main_v4_fetch_all_issues.py:279 | `[c for c in order if c in columns]` holds exactly the listed columns the table has, and all of `order` when the table has them all |
| Tables.PresentKeepsOrder | main_v4_fetch_all_issues.py:279 | the kept columns keep the relative order of `order` |
| Tables.PresentAll | main_v4_fetch_all_issues.py:279 | when the table has every listed column, the list is kept whole |
| Tables.Project | main_v4_fetch_all_issues.py:280 | a row restricted to the selected columns keeps exactly its cells in those columns, unchanged |
| Tables.SelectPresent | main_v4_fetch_all_issues.py:279-280 | the selected table has the columns of `order` that exist, in that order, and one restricted row per input row |
| Tables.SelectKeepsRows | main.py:237-249 | selecting columns the table has, when no row has any other key, keeps every row whole and gives exactly those columns |
| SprintText.LegacyNameMarker | main_v3.py:368 | the first `name=` in a legacy descriptor is the one before the sprint's name |
| SprintText.LegacyStateMarker | main_v3.py:378 | the first `state=` in a legacy descriptor is the one before the sprint's state |
| SprintText.EndsAt | main_v3.py:369-371 | the search for `,` (or `]`) from a position finds the one that ends a part free of it there |
| SprintText.ValueAfterAt | main_v3.py:368-374 | the text read after the first marker, up to the next comma, is the part placed there |
| SprintText.ValueAfterBracket | main_v3.py:368-374 | when no comma follows the marker, the value is read up to the next `]` |
| SprintText.ValueAfterUnterminated | main_v6_keyword_match.py:201-205 | with neither a comma nor a `]` after the marker, the value read is `''` |
| SprintText.LegacyNameAfter | main_v3.py:365-374 | a legacy descriptor contains `name=`, and the text read after it is the sprint's name |
| SprintText.LegacyStateAfter | main_v3.py:377-384 | a legacy descriptor contains `state=`, and the text read after it is the sprint's state |
| FetcherV3.CustomFieldValue | main_v3.py:255-266 | the first candidate id present with a non-None value decides, flattened by shape; with none, `''` |
| FetcherV3.CustomValueDictionary | main_v3.py:260-261 | a dictionary gives its `value` entry, even a None one, and `str(dict)` when it has no `value`, even if it has a `name` |
| FetcherV3.CustomValueStringList | main_v3.py:262-263 | a list of strings gives their `', '`-join, in order |
| FetcherV3.CustomValueSkipsNone | main_v3.py:257-259 | a missing or None candidate is skipped and the next candidate decides |
| FetcherV3.SprintDictionary | main_v3.py:347-359 | a sprint dictionary gives its name, plus ` (state)` exactly when the state is non-empty and not CLOSED; with no name, `Sprint {id}` for a truthy id (`{"id": 5}` gives `Sprint 5`); otherwise `''` |
| FetcherV3.LegacyStateSuffix | main_v3.py:377-386 | in a legacy descriptor the state is read up to the comma that follows it |
| FetcherV3.LegacyNameValue | main_v3.py:365-374 | in a legacy descriptor the name is read from after `name=` up to the next comma |
| FetcherV3.LegacySprintParse | main_v3.py:365-388 | a legacy descriptor gives its name, plus ` (state)` unless the state is empty or CLOSED: the same text as the dictionary form of that sprint |
| FetcherV3.SprintPlainString | main_v3.py:389-394 | a string with no extractable name is returned stripped, or `''` when it starts with `com.atlassian` |
| FetcherV3.SprintOtherShapes | main_v3.py:396 | a value that is neither a dictionary nor a string gives `''` |
| FetcherV3.NonEmptySprintNames | main_v3.py:309-312 | only non-empty parses are kept, at most one per element |
| FetcherV3.ExtractSprintInfo | main_v3.py:298-331 | the loop parses each element (or the single dictionary or string), keeps the non-empty names and joins them |
| FetcherV3.SprintInfoAbsent | main_v3.py:300-301 | a missing or None sprint field gives `''` |
| FetcherV3.NonEmptyNamesAll | main_v3.py:307-312 | every element is parsed, in order; when all names are non-empty each one is kept |
| FetcherV3.SprintInfoEveryElement | main_v3.py:307-326 | a sprint list whose elements all parse to non-empty names gives the `', '`-join of every element's name, in order |
| FetcherV3.IsDateInRange | main_v3.py:75-83 | the check is true only when all three dates parse |
| FetcherV3.IsDateInRangeIso | main_v3.py:81 | on ISO dates the check is exactly the inclusive window `start <= d <= end` |
| FetcherV3.FilterVersions | main_v3.py:52-67 | the loop over one project's versions yields the rows of the kept versions, or raises where Python raises |
| FetcherV3.FetchReleases | main_v3.py:38-73 | the releases of the comma-separated projects, in order; a failed request skips that project |
| FetcherV3.FilterProjects | main_v3.py:41-73 | the loop over the projects concatenates each project's rows |
| FetcherV3.ProjectRaisedStays | main_v3.py:52-56 | once a version raises (not a dictionary, or a non-string release date), the project raises |
| FetcherV3.AllRaisedFrom | main_v3.py:69-71 | such an exception is not the caught request error, so it escapes the whole call |
| FetcherV3.ProjectReleasesSound | main_v3.py:54-67 | every row is of the project, Released, and has a release date in the window |
| FetcherV3.ProjectReleasesFilter | main_v3.py:52-67 | on dictionaries with string or falsy dates, the result is exactly the rows of the versions that are released, dated and in the window, in input order; a date that does not parse only excludes its version |
| FetcherV3.ExtractIssueData | main_v3.py:219-253 | an issue record carries its release's project, version and date and the issue's key; it raises only on a non-dictionary issue or fields, or a mistyped projection |
| FetcherV3.FixVersionNamesOk | main_v3.py:236 | well-shaped fix versions give the `', '`-join of their names, in order |
| FetcherV3.ExtractIssueDataNullSafe | main_v3.py:228-237 | a well-shaped issue never raises, a missing or null priority, issuetype, assignee, reporter, status or resolution gives `''`, and `Fix_Version` and `Labels` are the version names and the labels joined with `', '`, in order |
| ReleaseExtractor.LatestSprint | main_v6_keyword_match.py:190-209 | falsy sprint data gives `''` |
| ReleaseExtractor.LatestSprintLastOnly | main_v6_keyword_match.py:195-207 | only the last element of a sprint list is read; a last dictionary gives its `name` |
| ReleaseExtractor.LatestSprintLegacy | main_v6_keyword_match.py:198-205 | a legacy descriptor as last element gives its name, with no state suffix |
| ReleaseExtractor.LatestSprintPlainString | main_v6_keyword_match.py:209 | a plain string is returned unchanged |
| ReleaseExtractor.LatestSprintFallsThrough | main_v6_keyword_match.py:209 | a list whose last element is neither a dictionary nor a string with `name=` gives `str(list)` |
| ReleaseExtractor.LatestSprintIdOnly | main_v6_keyword_match.py:206-207 | a last dictionary with an `id` but no `name` gives `''` |
| ReleaseExtractor.VersionStepKept | main_v4_fetch_all_issues.py:78-95 | a kept version is of the project, Released, and has a release date that parses and lies in the window |
| ReleaseExtractor.GetProjectVersions | main_v4_fetch_all_issues.py:55-100 | the loop over the projects concatenates each project's kept versions; a failed request contributes nothing |
| ReleaseExtractor.FilterVersions | main_v4_fetch_all_issues.py:72-98 | one project's kept versions up to the first version that raises |
| ReleaseExtractor.AllVersionsSound | main_v4_fetch_all_issues.py:78-95 | every version returned is of a listed project, Released, and has a release date in the window |
| ReleaseExtractor.VersionKeptIff | main_v4_fetch_all_issues.py:78-85 | for dates that parse, a version is kept exactly when it is released, has a release date, and that date lies in the window |
| ReleaseExtractor.UnparsableDateEndsProject | main_v4_fetch_all_issues.py:81-98 | a released version whose date does not parse raises; the versions before it are kept and those after it are never read |
| ReleaseExtractor.AsDict | main_v4_fetch_all_issues.py:155-176 | `issue_info` has exactly its twenty keys, with the issue key, project key and version name |
| ReleaseExtractor.JoinStrings | main_v4_fetch_all_issues.py:164 | the join of a list of strings is those strings joined with `', '`, in order |
| ReleaseExtractor.ListFields | main_v4_fetch_all_issues.py:153-165 | fix versions with string names and string labels give the names and the labels, each joined with `', '` in order |
| ReleaseExtractor.NamedFields | main_v4_fetch_all_issues.py:158-163 | the projections succeed exactly when issuetype, priority and status are absent or dictionaries; each value is its field's `.get('name', '')` (the guarded projection for resolution, assignee and reporter, which give `''` when falsy) |
| ReleaseExtractor.IssueInfo | main_v4_fetch_all_issues.py:146-177 | an issue record copies the custom fields raw, `''` only when absent, takes the sprint from the last element, and carries the project and version; its six standard projections are those of `NamedFields` and its fix versions and labels those of `ListFields`, the joined names and labels on plain lists; it succeeds on well-shaped input |
| ReleaseExtractor.IssueInfoNullTypeRaises | main_v4_fetch_all_issues.py:158-160 | a None issuetype, priority or status raises |
| ReleaseExtractor.GetIssuesForVersion | main_v4_fetch_all_issues.py:138-188 | the per-issue loop yields the records of the issues before the first one that raises |
| ReleaseExtractor.KeySetsAgree | main_v4_fetch_all_issues.py:250-257 | the key lists of `issue_info` and of the update have the members of their sets |
| ReleaseExtractor.WithVersion | main_v4_fetch_all_issues.py:250-257 | `issue.update` adds the five version keys with the version's values and keeps every other entry |
| ReleaseExtractor.ExtractReleaseData | main_v4_fetch_all_issues.py:211-284 | the table is empty with no versions or no issues, else the merged records cut down to `column_order` |
| ReleaseExtractor.MergeVersions | main_v4_fetch_all_issues.py:241-259 | `all_issues` is each version's merged issue records, version by version |
| ReleaseExtractor.AddVersionMeta | main_v4_fetch_all_issues.py:250-257 | every record of the version is updated in place with its metadata |
| ReleaseExtractor.IssuesForVersionRows | main_v4_fetch_all_issues.py:146-177 | every record fetched for a version has exactly the keys of `issue_info` and that project and version name |
| ReleaseExtractor.WithVersionMerged | main_v4_fetch_all_issues.py:250-257 | merging a version's own record gives the issue keys, the version keys and the version's metadata |
| ReleaseExtractor.AllIssuesIndex | main_v4_fetch_all_issues.py:241-259 | every record of `all_issues` is one merged record of one version |
| ReleaseExtractor.AllIssuesFromVersions | main_v4_fetch_all_issues.py:241-259 | every record of `all_issues` carries the metadata, project and name of one kept version |
| ReleaseExtractor.ColumnOrderKeys | main_v4_fetch_all_issues.py:269-276 | `column_order` names only keys a merged record has, and leaves out `version_id` |
| ReleaseExtractor.ColumnOrderInTable | main_v4_fetch_all_issues.py:269-279 | every entry of `column_order` is a column of the merged table |
| ReleaseExtractor.ColumnOrderPresent | main_v4_fetch_all_issues.py:279 | the selection keeps `column_order` whole |
| ReleaseExtractor.ExportedRow | main_v4_fetch_all_issues.py:279-280 | an exported row has exactly the columns of `column_order`, is Released, and carries its version's release date and project |
| ReleaseExtractor.ExportedKeys | main_v4_fetch_all_issues.py:279-280 | an exported row has every column of `column_order` |
| ReleaseExtractor.SelectedRowShape | main_v4_fetch_all_issues.py:265-280 | the exported table's columns are exactly `column_order`, without `version_id`, and each row is Released with its version's date and project |
| ReleaseExtractor.ReleaseDataShape | main_v4_fetch_all_issues.py:211-284 | every exported row has exactly the `column_order` columns, status Released, and the project and release date of a kept version dated in the window |
| KeywordMatch.CellHits | main_v6_keyword_match.py:373-381 | the hits of one cell are exactly the keywords that occur in it, in keyword order |
| KeywordMatch.RowHits | main_v6_keyword_match.py:370-381 | the hits of one row are exactly its (column, keyword) hits, column by column |
| KeywordMatch.TableHits | main_v6_keyword_match.py:366-384 | the hits of the table are exactly its (row, column, keyword) hits, in loop order |
| KeywordMatch.OtherColumns | main_v6_keyword_match.py:409 | `other_columns` is every column except the two new ones, and all columns when neither is present |
| KeywordMatch.OtherColumnsAppend | main_v6_keyword_match.py:409 | the filter keeps order: filtering a concatenation filters each half |
| KeywordMatch.OutputColumns | main_v6_keyword_match.py:412 | the two new columns come first, then the other columns |
| KeywordMatch.OutputRowEntries | main_v6_keyword_match.py:395-399 | an output row holds the keyword and the column of its match and every other cell of the matched row, unchanged |
| KeywordMatch.SearchKeywordsInData | main_v6_keyword_match.py:333-417 | the method computes the search: the hits of every row, then one output row per hit |
| KeywordMatch.MatchedRecords | main_v6_keyword_match.py:364-384 | `matched_records` holds one record per hit of the table, in order |
| KeywordMatch.FilteredData | main_v6_keyword_match.py:391-401 | `filtered_data` has one output row per match, in order |
| KeywordMatch.RowMatches | main_v6_keyword_match.py:367-381 | `row_matches` holds one record per hit of the row |
| KeywordMatch.CellMatches | main_v6_keyword_match.py:371-381 | a cell with no content has no matches; otherwise one record per keyword that occurs in it |
| KeywordMatch.EmptyCellHits | main_v6_keyword_match.py:373 | a cell no keyword hits contributes nothing |
| KeywordMatch.SearchInEmptyIff | main_v6_keyword_match.py:386-388 | the result is empty exactly when no keyword occurs in any searched cell with content, and is then the empty table |
| KeywordMatch.SearchInRowOf | main_v6_keyword_match.py:366-401 | every output row comes from one (row, column, keyword) hit and carries that row, the keyword as given and the column |
| KeywordMatch.SearchInFindsHit | main_v6_keyword_match.py:366-401 | every (row, column, keyword) hit has an output row |
| KeywordMatch.SearchInOrdered | main_v6_keyword_match.py:366-384 | output rows follow the hits, one each, ordered by row, then column, then keyword |
| KeywordMatch.SearchInColumnsFirst | main_v6_keyword_match.py:407-413 | a non-empty result starts with `matched_keyword` and `matched_column`, followed by `OtherColumns` of the table's columns, in their order |
| KeywordMatch.EmptyKeywordHits | main_v6_keyword_match.py:349-376 | an empty keyword hits every cell with content; no keyword hits a missing or null cell |
| FetcherMain.NormalizeCustom | main.py:169-175 | a value that flattens to something falsy becomes `''` |
| FetcherMain.NormalizeDictionary | main.py:171-175 | a dictionary gives its `value` when truthy, else its `name` when truthy, else `''` |
| FetcherMain.NormalizeList | main.py:173-174 | a list gives the `', '`-join of its items: a dictionary's `name`, `str(dict)` without one, or `str(item)` |
| FetcherMain.NormalizeScalar | main.py:175 | a scalar gives `''` exactly when falsy, otherwise `str(value)` |
| FetcherMain.WithCustomFieldsKeys | main.py:169-175 | the loop adds exactly the mapping's names to the record's keys |
| FetcherMain.WithCustomFieldsValue | main.py:169-175 | each name holds the normalised value of its field id; a missing field gives `''` |
| FetcherMain.WithCustomFieldsKeeps | main.py:169-175 | an entry no name overwrites keeps its value |
| FetcherMain.CustomNamesDistinct | main.py:159-167 | the custom-field names are distinct |
| FetcherMain.DescriptionCases | main.py:146 | a falsy description, or one without `content`, gives `''`; otherwise the first node's `text` |
| FetcherMain.StandardFields | main.py:141-155 | the record literal succeeds exactly when the issue and its fields are dictionaries and every projection succeeds |
| FetcherMain.ExtractIssueData | main.py:130-177 | `extract_issue_data` builds the dictionary literal, then runs the custom-field loop |
| FetcherMain.AssignCustomFields | main.py:169-175 | the loop assigns each normalised custom value in mapping order |
| FetcherMain.StandardRecordKeys | main.py:143-155 | the literal has exactly the eleven standard keys |
| FetcherMain.StandardFieldsKeys | main.py:143-155 | a standard record has exactly the eleven standard keys |
| FetcherMain.CustomNames | main.py:159-167 | the mapping's names are exactly the seven custom names |
| FetcherMain.StandardNotCustom | main.py:143-167 | no standard key is a custom name |
| FetcherMain.IssueDataUnfold | main.py:141-177 | the issue record is the custom-field loop run over the standard record |
| FetcherMain.IssueDataKeys | main.py:141-177 | the issue record has exactly the standard keys and the custom names |
| FetcherMain.IssueDataKeepsStandard | main.py:169-175 | the custom-field loop leaves the standard entries as the literal built them |
| FetcherMain.IssueDataCustom | main.py:169-175 | each custom name holds the normalised value of its field id |
| FetcherMain.StandardRecordEntries | main.py:143-154 | the literal's entries are the values computed for them |
| FetcherMain.StandardValuesEntries | main.py:146-154 | the description, each of the six projections and the two joins are computed as the code says |
| FetcherMain.StandardFieldsEntries | main.py:143-154 | the record holds the key, the summary, the description, the six null-safe projections and the labels and fix-version joins |
| FetcherMain.StandardFieldsOk | main.py:147-154 | a well-shaped issue whose description has the expected nesting does not raise, and its `labels` and `fix_versions` are the labels and the version names joined with `', '`, in order |
| FetcherMain.StandardFieldsNullSafe | main.py:147-152 | a missing or null priority, issuetype, assignee, reporter, status or resolution gives `''` |
| FetcherMain.GetReleasesInDateRange | main.py:52-87 | the loop's result, with every exception turning it into `[]` |
| FetcherMain.ReleasesInRangeSound | main.py:69-80 | every returned version is released, in the window, and one of the response's versions |
| FetcherMain.ReleasesInRangeComplete | main.py:69-80 | when nothing raises, every released version dated in the window is returned |
| FetcherMain.UnparsableDateDropsProject | main.py:71-87 | a released version whose date does not parse empties the whole result |
| FetcherMain.ParseProjectKeys | main.py:192 | the keys are the non-empty stripped comma-separated parts |
| FetcherMain.ParseProjectKeysJoin | main.py:192 | keys without commas or surrounding white space, written comma-separated, parse back to exactly those keys in order; `''` gives none |
| FetcherMain.NonEmpty | main.py:192 | the filter keeps exactly the non-empty entries, and the whole list when none is empty |
| FetcherMain.NonEmptyAppend | main.py:192 | the filter keeps order and multiplicity: filtering a concatenation filters each half |
| FetcherMain.NonEmptySnoc | main.py:192 | one more string extends the result by that string exactly when it is not empty |
| FetcherMain.FetchReleasesAndIssuesMultipleProjects | main.py:179-252 | the two sheets are the concatenated rows of every project, empty tables when there are no rows |
| FetcherMain.ProcessProject | main.py:201-228 | one project's `try` block appends rows up to the first exception, which ends that project only |
| FetcherMain.ReleaseIssues | main.py:220-225 | the issue loop appends the tagged records before the first issue that raises, and reports whether one did |
| FetcherMain.TaggedIssueData | main.py:221-225 | one iteration builds the issue record and writes the release and project over it |
| FetcherMain.StoppedStays | main.py:227-228 | after an exception ends a project's loop, its later releases add nothing |
| FetcherMain.GatherReleaseRows | main.py:205-215 | one release row per release, in order, up to and including the release whose issues raised; all of them when none raised |
| FetcherMain.GatherIssueRows | main.py:218-225 | every issue row is what the loop body made of one issue of one release |
| FetcherMain.ConcatReleases | main.py:198-215 | every release row of the run is a release row of one project |
| FetcherMain.ConcatIssues | main.py:198-225 | every issue row of the run is an issue row of one project |
| FetcherMain.ReleaseColumnsExact | main.py:237 | the six release columns are those of the release rows |
| FetcherMain.IssueColumnsExact | main.py:240-246 | `issues_columns` lists exactly the keys of the issue rows |
| FetcherMain.ReleaseRowOf | main.py:207-214 | the row of a released version in the window is a Released row |
| FetcherMain.ReleaseRowsReleased | main.py:205-214 | every release row has exactly the six columns, status Released, a listed project and a release date in the window |
| FetcherMain.IssueDataKeySetIs | main.py:141-175 | the issue record's key set is the standard keys plus the custom names |
| FetcherMain.IssueRowsTagged | main.py:218-225 | every issue row has exactly the `issues_columns` keys and the project, version name and date of one returned release |
| FetcherMain.TaggedRowOf | main.py:221-224 | a tagged record of a returned release is a tagged row |
| FetcherMain.ProjectIssueTagged | main.py:218-225 | every issue row of one project is the record of an issue fetched for one of its releases, tagged with that release |
| FetcherMain.SheetOrderKeepsCells | main.py:235-249 | the column reordering of both sheets keeps every row whole, and `existing_columns` is all of `issues_columns` |
| FieldAnalyzer.AnyInIff | custom_field_analyzer.py:151 | `any(k in name for k in keywords)` holds exactly when some keyword occurs |
| FieldAnalyzer.FirstRule | custom_field_analyzer.py:151-164 | a rule purpose is found exactly when some rule matches, and it is the purpose of a matching rule |
| FieldAnalyzer.FirstRuleWins | custom_field_analyzer.py:151-164 | a matching rule with no earlier matching rule decides |
| FieldAnalyzer.PurposeByFirstRule | custom_field_analyzer.py:148-164 | the purpose is the one of the first name rule whose keyword is in the lower-cased name, whatever the value |
| FieldAnalyzer.RulePurposes | custom_field_analyzer.py:151-164 | no name rule gives `Possible_Link` or `Unknown` |
| FieldAnalyzer.PossibleLinkIff | custom_field_analyzer.py:165-168 | `Possible_Link` exactly when no name rule matches and the value is a string with `http` or `www`; `Unknown` exactly when neither holds |
| FieldAnalyzer.ItemNames | custom_field_analyzer.py:183 | the names of the items succeed exactly when every item is a dictionary, one name per item |
| FieldAnalyzer.FormatSampleValue | custom_field_analyzer.py:170-189 | formatting raises only on a list led by a named dictionary whose second item is not a dictionary |
| FieldAnalyzer.FormatDict | custom_field_analyzer.py:172-178 | a dictionary is described by its `name` before its `value`, else by its text cut to 100 characters |
| FieldAnalyzer.FormatList | custom_field_analyzer.py:179-187 | an empty list is `Empty list`; a list led by a named dictionary is described by the names of its first two items |
| FieldAnalyzer.FormatScalar | custom_field_analyzer.py:189 | a scalar of at most 100 characters is unchanged; a longer one is cut to 100 characters plus `...` |
| FieldAnalyzer.FieldEntry | custom_field_analyzer.py:38-44 | an entry is read exactly when it and its schema are dictionaries, the name is a possible key and the id a string |
| FieldAnalyzer.FieldEntries | custom_field_analyzer.py:37-50 | the entries are read exactly when each one is, one result per entry |
| FieldAnalyzer.GetAllFieldMappings | custom_field_analyzer.py:26-56 | the loop builds the name-to-id map and the custom-field list; a failed request gives empty ones |
| FieldAnalyzer.NameMapKeys | custom_field_analyzer.py:42 | a name is a key of `field_mappings` exactly when some entry has it |
| FieldAnalyzer.LastNameWins | custom_field_analyzer.py:42 | a name maps to the id of the last entry that has it |
| FieldAnalyzer.CustomsAppend | custom_field_analyzer.py:44-50 | `custom_fields` keeps input order |
| FieldAnalyzer.CustomsMembers | custom_field_analyzer.py:44-50 | `custom_fields` holds exactly the `customfield_` entries |
| FieldAnalyzer.Counted | custom_field_analyzer.py:107-108 | only `customfield_` ids with non-None values count, each tagged with the issue key |
| FieldAnalyzer.IssueOccurrences | custom_field_analyzer.py:99-108 | an issue's occurrences are read exactly when the issue, its fields and their issuetype are dictionaries (and a truthy summary is a string) |
| FieldAnalyzer.IndexOfField | custom_field_analyzer.py:111 | the position of a field's record, or -1 exactly when it has none |
| FieldAnalyzer.AddOccurrence | custom_field_analyzer.py:109-133 | the inner loop's body for one occurrence |
| FieldAnalyzer.AnalyzeIssue | custom_field_analyzer.py:98-133 | one outer pass absorbs the issue's occurrences in order |
| FieldAnalyzer.AbsorbFields | custom_field_analyzer.py:107-133 | the inner loop absorbs the counted occurrences of one issue |
| FieldAnalyzer.AnalyzeIssueCustomFields | custom_field_analyzer.py:58-144 | the aggregation over a project's issues; no issues or a failed request gives `[]` |
| FieldAnalyzer.AbsorbAllStep | custom_field_analyzer.py:107-133 | one step of the inner loop absorbs one more counted item |
| FieldAnalyzer.AbsorbFieldsRaised | custom_field_analyzer.py:107-133 | once the inner loop raises, the issue raises |
| FieldAnalyzer.AggregateStep | custom_field_analyzer.py:98-133 | one step of the outer loop absorbs one more issue |
| FieldAnalyzer.CountedAppend | custom_field_analyzer.py:107-108 | counting distributes over concatenation |
| FieldAnalyzer.AbsorbAllAppend | custom_field_analyzer.py:107-133 | absorbing two runs of occurrences is absorbing one after the other |
| FieldAnalyzer.AggregateRaisedStays | custom_field_analyzer.py:98-133 | once an issue raises, the whole aggregation raises |
| FieldAnalyzer.AllOccurrences | custom_field_analyzer.py:98-108 | every occurrence counts |
| FieldAnalyzer.Matching | custom_field_analyzer.py:111-133 | the occurrences of one field, in order |
| FieldAnalyzer.KeysOfIndex | custom_field_analyzer.py:124 | `Issues_With_Data` has one key per occurrence, in order |
| FieldAnalyzer.TypesOfMembers | custom_field_analyzer.py:122-123 | `Value_Types` holds exactly the type names of the occurrences |
| FieldAnalyzer.CountedMembers | custom_field_analyzer.py:107-108 | an issue's occurrences are exactly its `customfield_` entries with a non-None value |
| FieldAnalyzer.MatchingSnoc | custom_field_analyzer.py:111-133 | one more occurrence adds to its own field only |
| FieldAnalyzer.FirstIdsSnoc | custom_field_analyzer.py:111-119 | a new id is added at the end; a known id changes nothing |
| FieldAnalyzer.MatchingAbsent | custom_field_analyzer.py:111 | an id not yet met has no occurrences |
| FieldAnalyzer.FirstIdsDistinct | custom_field_analyzer.py:111-119 | the ids met have no repeats |
| FieldAnalyzer.FirstIdsMembers | custom_field_analyzer.py:111-119 | an id is met exactly when some occurrence has it |
| FieldAnalyzer.RecordSummarises | custom_field_analyzer.py:121-133 | a further occurrence keeps its record a summary of its occurrences |
| FieldAnalyzer.RecordFirst | custom_field_analyzer.py:111-133 | the record made at a field's first occurrence summarises it, with name and purpose fixed then |
| FieldAnalyzer.DescribesNew | custom_field_analyzer.py:111-119 | appending a new field's record keeps the records a description |
| FieldAnalyzer.DescribesUpdate | custom_field_analyzer.py:121-133 | updating an existing field's record keeps the records a description |
| FieldAnalyzer.AbsorbDescribes | custom_field_analyzer.py:109-133 | absorbing one occurrence keeps the records a description |
| FieldAnalyzer.AbsorbAllLast | custom_field_analyzer.py:107-133 | absorbing a run is absorbing all but its last, then the last |
| FieldAnalyzer.AbsorbAllDescribes | custom_field_analyzer.py:107-133 | absorbing occurrences one by one from no records gives a description |
| FieldAnalyzer.AggregateFlat | custom_field_analyzer.py:98-133 | the outer loop is the same as absorbing all occurrences at once |
| FieldAnalyzer.AggregateDescribes | custom_field_analyzer.py:96-138 | one record per field met, in first-met order, with distinct ids; each has the field's name and purpose from its first occurrence, one issue key per occurrence, its type names and at most three samples (the first three) |
| FieldAnalyzer.SampleTexts | custom_field_analyzer.py:237 | one `Issue: Value` text per sample, in order |
| FieldAnalyzer.MakeRow | custom_field_analyzer.py:231-239 | the row's usage count is the number of issue keys, and its sample keys are the first three; it raises exactly when one of those is not a string |
| FieldAnalyzer.Rows | custom_field_analyzer.py:226-240 | the rows succeed exactly when each record's row does, one row per record, in order |
| FieldAnalyzer.CombineFieldData | custom_field_analyzer.py:222-240 | the loop with `processed_fields` gives the rows of the first record of each field id |
| FieldAnalyzer.CombineRaised | custom_field_analyzer.py:226-240 | a kept record whose row raises makes the report raise |
| FieldAnalyzer.RowsSnoc | custom_field_analyzer.py:240 | one more record appends its row |
| FieldAnalyzer.FirstPerFieldStep | custom_field_analyzer.py:226-229 | one more record is kept exactly when its id is new |
| FieldAnalyzer.FirstPerFieldPrefix | custom_field_analyzer.py:226-229 | what is kept from a prefix is a prefix of what is kept |
| FieldAnalyzer.FirstPerFieldKeeps | custom_field_analyzer.py:226-229 | a record with an unseen id is kept, after those kept before it |
| FieldAnalyzer.FirstPerFieldDistinct | custom_field_analyzer.py:226-229 | no field id is kept twice |
| FieldAnalyzer.FirstPerFieldComplete | custom_field_analyzer.py:226-229 | every field id of the input is kept |
| FieldAnalyzer.FirstPerFieldFirst | custom_field_analyzer.py:226-229 | each kept record is the first input record with its id |
| FieldAnalyzer.SortedTail | custom_field_analyzer.py:243 | a sorted sequence's head has the largest key and its tail stays sorted |
| FieldAnalyzer.InsertByPermutes | custom_field_analyzer.py:243 | inserting adds exactly the one element |
| FieldAnalyzer.InsertByElements | custom_field_analyzer.py:243 | every element after inserting is the new element or an old one |
| FieldAnalyzer.InsertBySorted | custom_field_analyzer.py:243 | inserting into a sorted sequence keeps it sorted |
| FieldAnalyzer.WithKeyAppend | custom_field_analyzer.py:243 | the elements of one key distribute over concatenation |
| FieldAnalyzer.WithKeyNone | custom_field_analyzer.py:243 | a sequence with no element of a key has none of it |
| FieldAnalyzer.InsertByStable | custom_field_analyzer.py:243 | an inserted element goes after every element of equal key |
| FieldAnalyzer.SortBySorted | custom_field_analyzer.py:243 | the sort gives non-increasing keys and rearranges its input |
| FieldAnalyzer.SortByStable | custom_field_analyzer.py:243 | the sort is stable: elements of equal key keep their order |
| FieldAnalyzer.SortUsageProperties | custom_field_analyzer.py:243 | sorting by `Usage_Count` descending is sorted, a permutation, and keeps equal counts in first-met order |
| FieldAnalyzer.AllAnalysis | custom_field_analyzer.py:213-217 | the projects' analyses succeed exactly when each does |
| FieldAnalyzer.AllAnalysisRaisedStays | custom_field_analyzer.py:213-217 | once a project raises, the whole loop raises |
| FieldAnalyzer.AnalyzeProjects | custom_field_analyzer.py:212-217 | the loop extends the list with each project's analysis, in order |
| FieldAnalyzer.GenerateFieldReport | custom_field_analyzer.py:203-243 | the mappings, the projects' analyses, the de-duplicated rows and the sort, in that order |
| FieldAnalyzer.FieldReportValue | custom_field_analyzer.py:203-243 | the report is the sorted rows of the kept records, together with the custom-field list |
| FieldAnalyzer.FieldReportOrder | custom_field_analyzer.py:203-243 | the report is the kept records' rows rearranged, by non-increasing usage, with ties in first-met order; the second sheet is the custom-field list |
| FieldAnalyzer.RowsCoverFields | custom_field_analyzer.py:226-240 | every field met has a row in any rearrangement of the rows |
| FieldAnalyzer.RowsFromFirst | custom_field_analyzer.py:226-240 | each row is the row of the first record met for its field |
| FieldAnalyzer.ReportCoversFields | custom_field_analyzer.py:222-243 | the report has one row per field id, and every field met in the projects has a row |
| FieldAnalyzer.ReportRowsFromFirst | custom_field_analyzer.py:222-243 | every report row is the row of the first record met across the projects for its field |

## Left out

- HTTP is not modelled: `requests.Session`, `_make_request`, authentication, SSL settings, the JQL text, the `fields`/`expand` parameters and the `startAt`/`maxResults` pagination loops. Each request is a parameter: the decoded response, or None when the request failed. main_v4's `fetchIssues` returns the issues of every page together.
- Excel and CSV export, the column-width loops and the `datetime.now()` file names are not modelled. They are file I/O and cosmetics.
- `print`, logging, `_debug_custom_fields`, the `debug_sprint` branches and the suggestion printing of main_v3 `get_field_mappings` are diagnostic output only.
- The console summary and purpose grouping at the end of `generate_field_report` only print, so they are not modelled.
- `main()` in every file is left out. It reads input and calls the modelled operations; main.py's calls a method that does not exist.
- main_v3's `fetch_issues_for_releases` and `create_dataframes` are not modelled. They are request loops and DataFrame construction around `_extract_issue_data`, which is modelled.
- The text of Python's `str()`/`repr()` for dictionaries and lists is the parameter `repr`. Scalars (None, booleans, integers, strings) are rendered exactly.
- JSON numbers are integers only; floating point is not modelled.
- `str.lower` is modelled on ASCII letters only; `str.strip` uses Python's full white-space set.
- A JSON decoding error is folded into the failed-request case (None).
- A Python exception is `Raised`, with no exception kind. Each file's `except` clauses are modelled by what they catch: main_v3 and the analyzer catch request errors only, while main.py and main_v4/main_v6 catch every exception.
- FieldAnalyzer.AnalyzeIssueCustomFields: a dictionary's key order is not kept by a Dafny `map`, so the order of `fields.items()` is the parameter `itemsOf`. `Value_Types` is kept as a set; its `list()` order is not modelled.
- FieldAnalyzer.GetAllFieldMappings: names are strings, so the collision of a `True` key with a `1` key in `field_mappings` is not modelled.
- FieldAnalyzer.GenerateFieldReport: the in-place `field_report.sort` is modelled by the value function `SortBy` (a stable insertion sort). The method assigns its result rather than sorting an array in place.
- FetcherV3.ExtractIssueData: `issue_data.update(custom_fields)` joins two disjoint key sets, so the record is built as one value. Its key order is not modelled.
- Tables: a pandas DataFrame is ordered column names and one dictionary per row. NaN cells are absent keys, and the index is not modelled.
- Tables: pandas' dtype inference in `pd.DataFrame(records)` is not modelled. A column whose values are integers and None (or missing in some records) becomes float64 in pandas, so its integers print as `5.0` and large ones lose precision. The model keeps the integer `JNum(5)`, which prints as `5`. This affects the raw custom fields of KeywordMatch.CellText (main_v6_keyword_match.py:266, 371): the keyword `5.0` or `.` hits such a cell in Python but not in the model. It also affects columns such as `story_points` in ReleaseExtractor.MergedTable (main_v4_fetch_all_issues.py:266), which hold 3.0 and NaN in pandas.
- Json.Elements: iterating a non-empty dictionary yields its keys in insertion order, an order a `map` does not keep, so the model gives `Raised` there. Iterating a string yields its characters, as in Python. The versions, issues, field-list and fix-version loops index or call `.get` on each item, and a string key raises there in Python too.
- Json.JoinJson: `', '.join` of a non-empty dictionary joins its keys in Python but is `Raised` in the model. This reaches the labels joins of FetcherV3.LabelsText (main_v3.py:237), FetcherMain.StandardValues (main.py:153) and ReleaseExtractor.ListFields (main_v4_fetch_all_issues.py:165): labels `{"a": 1}` give `"a"` there, and the model raises.
- Json.First: `x[0]` on a string gives its first character in Python, but the model gives `Raised`. Its only use (main.py:146) calls `.get` on that character, which raises in Python too.
- Tables.HasValue: `pd.notna` of a cell holding a list (a raw custom-field value) is an array, not a boolean. At main_v6_keyword_match.py:371 the `if` then raises ValueError for a list of two or more items, and tests the single item of a one-item list. The model treats every present, non-None cell as having a value, so KeywordMatch.CellText searches `str()` of such a list instead.
- Dates.ParseYmd: only ASCII digits are accepted. CPython's `strptime` directives also match other Unicode decimal digits, so a date written in, say, Arabic-Indic digits parses in Python but not in the model.
- FetcherV3.FetchReleases: each decoded versions response is a list (`Option<seq<Json>>`), so a response that decodes to an object, a string or a number is not expressible. In Python (main_v3.py:50-56), iterating such a value and calling `version.get` on each item raises AttributeError or TypeError. That is not a `RequestException`, so it escapes `fetch_releases`.
