/** `JiraReleaseFetcher` of main.py: its custom-field normaliser, the
    null-safe issue record, the release-window filter that drops the whole
    project when a date does not parse, project-key parsing and the merge of
    releases and issues over several projects. */
module FetcherMain {
  import opened Outcome
  import opened Json
  import opened Text
  import opened Dates
  import opened Tables
  import FetcherV3

  // ---------------------------------------------------------------------
  // The custom-field loop of extract_issue_data

  /** `custom_fields_mapping`, in its order: output name and field id. */
  const CustomFieldsMapping: seq<(string, string)> := [
    ("story_points", "customfield_10016"),
    ("sprint", "customfield_10020"),
    ("acceptance_criteria", "customfield_10030"),
    ("feature_link", "customfield_10040"),
    ("notes", "customfield_10050"),
    ("sdlc_information", "customfield_10060"),
    ("application_name", "customfield_10070")]

  /** One list element: `str(item.get('name', item))` for a dictionary,
      `str(item)` otherwise. */
  function ListItemText(item: Json, repr: Renderer): string
  {
    if item.JObj? then Str(GetOr(item.fields, "name", item), repr) else Str(item, repr)
  }

  /** `', '.join([...])` over a list value. */
  function ListText(items: seq<Json>, repr: Renderer): string
  {
    Join(", ", seq(|items|, i requires 0 <= i < |items| => ListItemText(items[i], repr)))
  }

  /** The value after the `isinstance` branches: a dictionary gives its
      `value` when truthy and its `name` otherwise, a list its joined text,
      anything else itself. */
  function Flattened(v: Json, repr: Renderer): Json
  {
    if v.JObj? then
      var value := GetOr(v.fields, "value", JStr(""));
      if Truthy(value) then value else GetOr(v.fields, "name", JStr(""))
    else if v.JArr? then JStr(ListText(v.items, repr))
    else v
  }

  /** `str(field_value) if field_value else ''` after flattening. */
  function NormalizeCustom(v: Json, repr: Renderer): (r: string)
    ensures !Truthy(Flattened(v, repr)) ==> r == ""
  {
    var fv := Flattened(v, repr);
    if Truthy(fv) then Str(fv, repr) else ""
  }

  /** A dictionary's `value` beats its `name`; with both falsy the result is
      `''`. */
  lemma {:induction false} NormalizeDictionary(m: map<string, Json>, repr: Renderer)
    ensures Truthy(GetOr(m, "value", JStr(""))) ==> NormalizeCustom(JObj(m), repr) == Str(m["value"], repr)
    ensures !Truthy(GetOr(m, "value", JStr(""))) && Truthy(GetOr(m, "name", JStr("")))
            ==> NormalizeCustom(JObj(m), repr) == Str(m["name"], repr)
    ensures !Truthy(GetOr(m, "value", JStr(""))) && !Truthy(GetOr(m, "name", JStr("")))
            ==> NormalizeCustom(JObj(m), repr) == ""
  {
  }

  /** A list gives the `', '`-join of its elements' texts, in order: a
      dictionary's `name`, else the dictionary itself, else the element. */
  lemma {:induction false} NormalizeList(items: seq<Json>, repr: Renderer)
    ensures NormalizeCustom(JArr(items), repr) == ListText(items, repr)
    ensures forall i :: 0 <= i < |items| && items[i].JObj? && "name" in items[i].fields
              ==> ListItemText(items[i], repr) == Str(items[i].fields["name"], repr)
    ensures forall i :: 0 <= i < |items| && items[i].JObj? && "name" !in items[i].fields
              ==> ListItemText(items[i], repr) == repr(items[i])
  {
  }

  /** Any other value: `''` exactly when it is falsy (None, False, 0, ''),
      otherwise `str(value)`. */
  lemma {:induction false} NormalizeScalar(v: Json, repr: Renderer)
    requires !v.JObj? && !v.JArr?
    ensures NormalizeCustom(v, repr) == if Truthy(v) then Str(v, repr) else ""
    ensures NormalizeCustom(v, repr) == "" <==> !Truthy(v)
  {
    StrEmpty(v, repr);
  }

  /** The custom-field loop: the entries of `mapping` assigned in order on top
      of `base`. */
  function WithCustomFields(base: map<string, Json>, mapping: seq<(string, string)>,
                            fields: map<string, Json>, repr: Renderer): map<string, Json>
  {
    if mapping == [] then base
    else
      var (name, id) := mapping[|mapping| - 1];
      WithCustomFields(base, mapping[..|mapping| - 1], fields, repr)[name := CustomValue(fields, id, repr)]
  }

  /** Names that occur once each. */
  predicate DistinctNames(mapping: seq<(string, string)>)
  {
    forall i, j :: 0 <= i < j < |mapping| ==> mapping[i].0 != mapping[j].0
  }

  /** The value the loop assigns for a field id. */
  function CustomValue(fields: map<string, Json>, id: string, repr: Renderer): Json
  {
    JStr(NormalizeCustom(GetOr(fields, id, JStr("")), repr))
  }

  /** The loop adds one entry per name and keeps the entries of `base`. */
  lemma {:induction false} WithCustomFieldsKeys(base: map<string, Json>, mapping: seq<(string, string)>,
                                                fields: map<string, Json>, repr: Renderer, k: string)
    ensures k in WithCustomFields(base, mapping, fields, repr)
            <==> k in base || exists i :: 0 <= i < |mapping| && mapping[i].0 == k
  {
    if mapping != [] {
      var init := mapping[..|mapping| - 1];
      WithCustomFieldsKeys(base, init, fields, repr, k);
      if exists i :: 0 <= i < |init| && init[i].0 == k {
        var i :| 0 <= i < |init| && init[i].0 == k;
        assert mapping[i].0 == k;
      }
      if exists i :: 0 <= i < |mapping| && mapping[i].0 == k {
        var i :| 0 <= i < |mapping| && mapping[i].0 == k;
        if i < |init| {
          assert init[i].0 == k;
        }
      }
    }
  }

  /** Each name holds the normalised value of its field (`''` for a field the
      payload lacks), when the names are distinct. */
  lemma {:induction false} WithCustomFieldsValue(base: map<string, Json>, mapping: seq<(string, string)>,
                                                 fields: map<string, Json>, repr: Renderer, i: int)
    requires DistinctNames(mapping) && 0 <= i < |mapping|
    ensures mapping[i].0 in WithCustomFields(base, mapping, fields, repr)
    ensures WithCustomFields(base, mapping, fields, repr)[mapping[i].0] == CustomValue(fields, mapping[i].1, repr)
  {
    var init := mapping[..|mapping| - 1];
    if i < |init| {
      assert DistinctNames(init);
      assert init[i] == mapping[i];
      assert mapping[i].0 != mapping[|mapping| - 1].0;
      WithCustomFieldsValue(base, init, fields, repr, i);
    }
  }

  /** An entry of `base` that no name overwrites keeps its value. */
  lemma {:induction false} WithCustomFieldsKeeps(base: map<string, Json>, mapping: seq<(string, string)>,
                                                 fields: map<string, Json>, repr: Renderer, k: string)
    requires k in base && forall i :: 0 <= i < |mapping| ==> mapping[i].0 != k
    ensures k in WithCustomFields(base, mapping, fields, repr)
    ensures WithCustomFields(base, mapping, fields, repr)[k] == base[k]
  {
    if mapping != [] {
      var init := mapping[..|mapping| - 1];
      assert forall i :: 0 <= i < |init| ==> init[i] == mapping[i];
      assert mapping[|mapping| - 1].0 != k;
      WithCustomFieldsKeeps(base, init, fields, repr, k);
    }
  }

  lemma {:induction false} CustomNamesDistinct()
    ensures DistinctNames(CustomFieldsMapping)
  {
  }

  // ---------------------------------------------------------------------
  // The standard fields of extract_issue_data

  /** The `description` entry: `''` when the field is falsy, otherwise the
      `text` of the first content node of the first content block, each step
      defaulting to `[{}]` or `''` when a key is missing. It raises when a
      step meets a value that is not a dictionary or an empty content list. */
  function DescriptionText(fields: map<string, Json>): Result<Json>
  {
    var d := GetOr(fields, "description", JNull);
    if !Truthy(d) then Ok(JStr(""))
    else
      var content :- Get(d, "content", JArr([EmptyObj]));
      var block :- First(content);
      var inner :- Get(block, "content", JArr([EmptyObj]));
      var node :- First(inner);
      Get(node, "text", JStr(""))
  }

  /** A missing or null description gives `''`; a description with no
      `content` key also gives `''`; otherwise the first node's `text`. */
  lemma {:induction false} DescriptionCases(fields: map<string, Json>, block: map<string, Json>, node: map<string, Json>,
                         blocks: seq<Json>, nodes: seq<Json>)
    ensures !Truthy(GetOr(fields, "description", JNull)) ==> DescriptionText(fields) == Ok(JStr(""))
    ensures "description" in fields && fields["description"].JObj? && Truthy(fields["description"])
            && "content" !in fields["description"].fields
            ==> DescriptionText(fields) == Ok(JStr(""))
    ensures "description" in fields && fields["description"].JObj? && Truthy(fields["description"])
            && GetOr(fields["description"].fields, "content", JNull) == JArr([JObj(block)] + blocks)
            && GetOr(block, "content", JNull) == JArr([JObj(node)] + nodes)
            ==> DescriptionText(fields) == Ok(GetOr(node, "text", JStr("")))
  {
  }

  /** The values `extract_issue_data` computes from `fields` for its
      dictionary literal. */
  datatype Standard = Standard(description: Json, priority: Json, issueType: Json, assignee: Json,
                               reporter: Json, status: Json, resolution: Json, labels: string, fixVersions: string)

  /** The projections of the dictionary literal, in the order Python
      evaluates them; Raised at the first that raises. */
  function StandardValues(fields: Json): Result<Standard>
    requires fields.JObj?
  {
    var description :- DescriptionText(fields.fields);
    var priority :- NullSafeGet(fields, "priority", "name");
    var issueType :- NullSafeGet(fields, "issuetype", "name");
    var assignee :- NullSafeGet(fields, "assignee", "displayName");
    var reporter :- NullSafeGet(fields, "reporter", "displayName");
    var status :- NullSafeGet(fields, "status", "name");
    var resolution :- NullSafeGet(fields, "resolution", "name");
    var labels :- FetcherV3.LabelsText(fields);
    var fixVersions :- FetcherV3.FixVersionNames(fields);
    Ok(Standard(description, priority, issueType, assignee, reporter, status, resolution, labels, fixVersions))
  }

  /** The dictionary literal itself. */
  function StandardRecord(key: Json, summary: Json, v: Standard): map<string, Json>
  {
    map[
      "issue_key" := key,
      "summary" := summary,
      "description" := v.description,
      "priority" := v.priority,
      "issue_type" := v.issueType,
      "assignee" := v.assignee,
      "reporter" := v.reporter,
      "status" := v.status,
      "resolution" := v.resolution,
      "labels" := JStr(v.labels),
      "fix_versions" := JStr(v.fixVersions)]
  }

  /** The dictionary literal of `issue_data`, before the custom fields, or
      Raised when the issue or its `fields` is not a dictionary or a
      projection raises. */
  function StandardFields(issue: Json): (r: Result<map<string, Json>>)
    ensures r.Ok? <==> issue.JObj? && GetOr(issue.fields, "fields", EmptyObj).JObj?
                       && StandardValues(GetOr(issue.fields, "fields", EmptyObj)).Ok?
  {
    if !issue.JObj? then Raised
    else
      var fields := GetOr(issue.fields, "fields", EmptyObj);
      if !fields.JObj? then Raised
      else
        var v :- StandardValues(fields);
        Ok(StandardRecord(GetOr(issue.fields, "key", JStr("")), GetOr(fields.fields, "summary", JStr("")), v))
  }

  /** What `extract_issue_data(issue)` returns, or Raised. */
  function IssueData(issue: Json, repr: Renderer): Result<map<string, Json>>
  {
    var base :- StandardFields(issue);
    Ok(WithCustomFields(base, CustomFieldsMapping, GetOr(issue.fields, "fields", EmptyObj).fields, repr))
  }

  /** `extract_issue_data(issue)`: the dictionary literal, then the loop over
      `custom_fields_mapping` assigning each normalised value. */
  method ExtractIssueData(issue: Json, repr: Renderer) returns (r: Result<map<string, Json>>)
    ensures r == IssueData(issue, repr)
  {
    var base := StandardFields(issue);
    if base.Raised? {
      return Raised;
    }
    var fields := GetOr(issue.fields, "fields", EmptyObj).fields;
    var issueData := AssignCustomFields(base.value, CustomFieldsMapping, fields, repr);
    r := Ok(issueData);
  }

  /** `for field_name, field_id in custom_fields_mapping.items(): ...
      issue_data[field_name] = ...`. */
  method AssignCustomFields(base: map<string, Json>, mapping: seq<(string, string)>,
                            fields: map<string, Json>, repr: Renderer) returns (issueData: map<string, Json>)
    ensures issueData == WithCustomFields(base, mapping, fields, repr)
  {
    issueData := base;
    var i := 0;
    while i < |mapping|
      invariant 0 <= i <= |mapping|
      invariant issueData == WithCustomFields(base, mapping[..i], fields, repr)
    {
      var (fieldName, fieldId) := mapping[i];
      assert mapping[..i + 1][..i] == mapping[..i];
      issueData := issueData[fieldName := CustomValue(fields, fieldId, repr)];
      i := i + 1;
    }
    assert mapping[..i] == mapping;
  }

  /** The keys of the dictionary literal in `extract_issue_data`. */
  const StandardKeySet: set<string> := {
    "issue_key", "summary", "description", "priority", "issue_type", "assignee", "reporter",
    "status", "resolution", "labels", "fix_versions"}

  /** The names of the custom-field mapping. */
  const CustomNameSet: set<string> := {
    "story_points", "sprint", "acceptance_criteria", "feature_link", "notes",
    "sdlc_information", "application_name"}

  /** The keys of `issue_data` after the custom-field loop. */
  const IssueDataKeySet: set<string> := StandardKeySet + CustomNameSet

  lemma {:induction false} StandardRecordKeys(key: Json, summary: Json, v: Standard, k: string)
    ensures k in StandardRecord(key, summary, v) <==> k in StandardKeySet
  {
  }

  lemma {:induction false} StandardFieldsKeys(issue: Json, k: string)
    requires StandardFields(issue).Ok?
    ensures k in StandardFields(issue).value <==> k in StandardKeySet
  {
    var fields := GetOr(issue.fields, "fields", EmptyObj);
    StandardRecordKeys(GetOr(issue.fields, "key", JStr("")), GetOr(fields.fields, "summary", JStr("")),
                       StandardValues(fields).value, k);
  }

  lemma {:induction false} CustomNames(k: string)
    ensures (exists i :: 0 <= i < |CustomFieldsMapping| && CustomFieldsMapping[i].0 == k) <==> k in CustomNameSet
  {
    if k in CustomNameSet {
      if k == "story_points" { assert CustomFieldsMapping[0].0 == k; }
      else if k == "sprint" { assert CustomFieldsMapping[1].0 == k; }
      else if k == "acceptance_criteria" { assert CustomFieldsMapping[2].0 == k; }
      else if k == "feature_link" { assert CustomFieldsMapping[3].0 == k; }
      else if k == "notes" { assert CustomFieldsMapping[4].0 == k; }
      else if k == "sdlc_information" { assert CustomFieldsMapping[5].0 == k; }
      else { assert CustomFieldsMapping[6].0 == k; }
    }
  }

  /** No standard key is a custom name. */
  lemma {:induction false} StandardNotCustom(k: string)
    requires k in StandardKeySet
    ensures forall i :: 0 <= i < |CustomFieldsMapping| ==> CustomFieldsMapping[i].0 != k
  {
    forall i | 0 <= i < |CustomFieldsMapping| ensures CustomFieldsMapping[i].0 != k {
      assert CustomFieldsMapping[i].0 in CustomNameSet;
    }
  }

  /** `IssueData` is the custom-field loop over the standard entries. */
  lemma {:induction false} IssueDataUnfold(issue: Json, repr: Renderer)
    requires IssueData(issue, repr).Ok?
    ensures StandardFields(issue).Ok?
    ensures IssueData(issue, repr).value
            == WithCustomFields(StandardFields(issue).value, CustomFieldsMapping, GetOr(issue.fields, "fields", EmptyObj).fields, repr)
  {
  }

  /** `extract_issue_data` returns a dictionary with exactly the standard keys
      and one key per custom field. */
  lemma {:induction false} IssueDataKeys(issue: Json, repr: Renderer, k: string)
    requires IssueData(issue, repr).Ok?
    ensures k in IssueData(issue, repr).value <==> k in IssueDataKeySet
  {
    IssueDataUnfold(issue, repr);
    StandardFieldsKeys(issue, k);
    CustomNames(k);
    WithCustomFieldsKeys(StandardFields(issue).value, CustomFieldsMapping, GetOr(issue.fields, "fields", EmptyObj).fields, repr, k);
  }

  /** The custom-field loop leaves the standard entries as the dictionary
      literal built them. */
  lemma {:induction false} IssueDataKeepsStandard(issue: Json, repr: Renderer, k: string)
    requires IssueData(issue, repr).Ok? && k in StandardKeySet
    ensures StandardFields(issue).Ok? && k in StandardFields(issue).value
    ensures k in IssueData(issue, repr).value && IssueData(issue, repr).value[k] == StandardFields(issue).value[k]
  {
    IssueDataUnfold(issue, repr);
    StandardFieldsKeys(issue, k);
    StandardNotCustom(k);
    WithCustomFieldsKeeps(StandardFields(issue).value, CustomFieldsMapping, GetOr(issue.fields, "fields", EmptyObj).fields, repr, k);
  }

  /** Each custom key holds the normalised value of its field id. */
  lemma {:induction false} IssueDataCustom(issue: Json, repr: Renderer, i: int)
    requires IssueData(issue, repr).Ok? && 0 <= i < |CustomFieldsMapping|
    ensures CustomFieldsMapping[i].0 in IssueData(issue, repr).value
    ensures IssueData(issue, repr).value[CustomFieldsMapping[i].0]
            == JStr(NormalizeCustom(GetOr(GetOr(issue.fields, "fields", EmptyObj).fields, CustomFieldsMapping[i].1, JStr("")), repr))
  {
    CustomNamesDistinct();
    WithCustomFieldsValue(StandardFields(issue).value, CustomFieldsMapping, GetOr(issue.fields, "fields", EmptyObj).fields, repr, i);
  }

  lemma {:induction false} StandardRecordEntries(key: Json, summary: Json, v: Standard)
    ensures var r := StandardRecord(key, summary, v);
            r["issue_key"] == key && r["summary"] == summary && r["description"] == v.description
            && r["priority"] == v.priority && r["issue_type"] == v.issueType && r["assignee"] == v.assignee
            && r["reporter"] == v.reporter && r["status"] == v.status && r["resolution"] == v.resolution
            && r["labels"] == JStr(v.labels) && r["fix_versions"] == JStr(v.fixVersions)
  {
  }

  lemma {:induction false} StandardValuesEntries(fields: Json)
    requires fields.JObj? && StandardValues(fields).Ok?
    ensures var v := StandardValues(fields).value;
            DescriptionText(fields.fields) == Ok(v.description)
            && NullSafeGet(fields, "priority", "name") == Ok(v.priority)
            && NullSafeGet(fields, "issuetype", "name") == Ok(v.issueType)
            && NullSafeGet(fields, "assignee", "displayName") == Ok(v.assignee)
            && NullSafeGet(fields, "reporter", "displayName") == Ok(v.reporter)
            && NullSafeGet(fields, "status", "name") == Ok(v.status)
            && NullSafeGet(fields, "resolution", "name") == Ok(v.resolution)
            && FetcherV3.LabelsText(fields) == Ok(v.labels)
            && FetcherV3.FixVersionNames(fields) == Ok(v.fixVersions)
  {
  }

  /** The entries of the dictionary literal: the key, the summary, and the
      description and six null-safe projections. */
  lemma {:induction false} StandardFieldsEntries(issue: Json)
    requires StandardFields(issue).Ok?
    ensures var r := StandardFields(issue).value;
            var fields := GetOr(issue.fields, "fields", EmptyObj);
            r["issue_key"] == GetOr(issue.fields, "key", JStr(""))
            && r["summary"] == GetOr(fields.fields, "summary", JStr(""))
            && DescriptionText(fields.fields) == Ok(r["description"])
            && NullSafeGet(fields, "priority", "name") == Ok(r["priority"])
            && NullSafeGet(fields, "issuetype", "name") == Ok(r["issue_type"])
            && NullSafeGet(fields, "assignee", "displayName") == Ok(r["assignee"])
            && NullSafeGet(fields, "reporter", "displayName") == Ok(r["reporter"])
            && NullSafeGet(fields, "status", "name") == Ok(r["status"])
            && NullSafeGet(fields, "resolution", "name") == Ok(r["resolution"])
            && r["labels"].JStr? && FetcherV3.LabelsText(fields) == Ok(r["labels"].s)
            && r["fix_versions"].JStr? && FetcherV3.FixVersionNames(fields) == Ok(r["fix_versions"].s)
  {
    var fields := GetOr(issue.fields, "fields", EmptyObj);
    var v := StandardValues(fields).value;
    var key, summary := GetOr(issue.fields, "key", JStr("")), GetOr(fields.fields, "summary", JStr(""));
    assert StandardFields(issue).value == StandardRecord(key, summary, v);
    StandardRecordEntries(key, summary, v);
    StandardValuesEntries(fields);
  }

  /** An issue of the shape the tracker sends, whose description has the
      expected nesting, does not raise, and its labels and fix versions are
      the label strings and version names joined with `', '`, in order. */
  lemma {:induction false} StandardFieldsOk(issue: Json)
    requires FetcherV3.WellShapedIssue(issue)
    requires DescriptionText(GetOr(issue.fields, "fields", EmptyObj).fields).Ok?
    ensures StandardFields(issue).Ok?
    ensures var r := StandardFields(issue).value;
            var f := GetOr(issue.fields, "fields", EmptyObj).fields;
            r["labels"] == JStr(Join(", ", StringsOf(GetOr(f, "labels", JArr([])).items)))
            && r["fix_versions"] == JStr(Join(", ", FetcherV3.VersionNames(GetOr(f, "fixVersions", JArr([])))))
  {
    var fields := GetOr(issue.fields, "fields", EmptyObj);
    FetcherV3.FixVersionNamesOk(fields);
    assert FetcherV3.LabelsText(fields).Ok?;
    assert NullSafeGet(fields, "priority", "name").Ok?;
    assert NullSafeGet(fields, "issuetype", "name").Ok?;
    assert NullSafeGet(fields, "assignee", "displayName").Ok?;
    assert NullSafeGet(fields, "reporter", "displayName").Ok?;
    assert NullSafeGet(fields, "status", "name").Ok?;
    assert NullSafeGet(fields, "resolution", "name").Ok?;
  }

  /** Null-safe projections: a missing or null priority, issuetype, assignee,
      reporter, status or resolution gives `''`. */
  lemma {:induction false} StandardFieldsNullSafe(issue: Json)
    requires StandardFields(issue).Ok?
    ensures var r := StandardFields(issue).value;
            var f := GetOr(issue.fields, "fields", EmptyObj).fields;
            (!Truthy(GetOr(f, "priority", JNull)) ==> r["priority"] == JStr(""))
            && (!Truthy(GetOr(f, "issuetype", JNull)) ==> r["issue_type"] == JStr(""))
            && (!Truthy(GetOr(f, "assignee", JNull)) ==> r["assignee"] == JStr(""))
            && (!Truthy(GetOr(f, "reporter", JNull)) ==> r["reporter"] == JStr(""))
            && (!Truthy(GetOr(f, "status", JNull)) ==> r["status"] == JStr(""))
            && (!Truthy(GetOr(f, "resolution", JNull)) ==> r["resolution"] == JStr(""))
  {
    StandardFieldsEntries(issue);
  }

  // ---------------------------------------------------------------------
  // get_releases_in_date_range

  /** The loop body for one version: Raised where Python raises (a version
      that is not a dictionary, and `strptime` on a release date that is not
      a string or does not parse, or on a start or end date that does not
      parse). */
  function VersionCheck(v: Json, startDate: string, endDate: string): Result<Option<map<string, Json>>>
  {
    if !v.JObj? then Raised
    else if !Truthy(GetOr(v.fields, "released", JBool(false))) then Ok(None)
    else
      var rd := GetOr(v.fields, "releaseDate", JNull);
      if !Truthy(rd) then Ok(None)
      else if !rd.JStr? || ParseYmd(rd.s).None? || ParseYmd(startDate).None? || ParseYmd(endDate).None? then Raised
      else if InWindow(ParseYmd(rd.s).value, ParseYmd(startDate).value, ParseYmd(endDate).value) then Ok(Some(v.fields))
      else Ok(None)
  }

  function VersionStep(startDate: string, endDate: string): Json -> Result<Option<map<string, Json>>>
  {
    v => VersionCheck(v, startDate, endDate)
  }

  /** What `get_releases_in_date_range` returns for the decoded response
      (None when the request failed): every exception, even one met after
      some versions were accepted, gives `[]`. */
  function ReleasesInRange(response: Option<Json>, startDate: string, endDate: string): seq<map<string, Json>>
  {
    if response.None? then []
    else
      match Elements(response.value)
      case Raised => []
      case Ok(vs) =>
        if NoneRaise(vs, VersionStep(startDate, endDate)) then UpToRaise(vs, VersionStep(startDate, endDate)) else []
  }

  /** `get_releases_in_date_range(project_key, start_date, end_date)`: the
      loop over the versions inside the `try`. */
  method GetReleasesInDateRange(response: Option<Json>, startDate: string, endDate: string)
    returns (releasedVersions: seq<map<string, Json>>)
    ensures releasedVersions == ReleasesInRange(response, startDate, endDate)
  {
    if response.None? {
      return [];
    }
    var versions := Elements(response.value);
    if versions.Raised? {
      return [];
    }
    var vs := versions.value;
    ghost var step := VersionStep(startDate, endDate);
    releasedVersions := [];
    var i := 0;
    while i < |vs|
      invariant 0 <= i <= |vs|
      invariant NoneRaise(vs[..i], step)
      invariant releasedVersions == UpToRaise(vs[..i], step)
    {
      var r := VersionCheck(vs[i], startDate, endDate);
      assert step(vs[i]) == r;
      if r.Raised? {
        assert !NoneRaise(vs, step);
        return [];
      }
      UpToRaiseNext(vs, step, i);
      if r.value.Some? {
        releasedVersions := releasedVersions + [r.value.value];
      }
      i := i + 1;
    }
    assert vs[..i] == vs;
  }

  /** Every returned version is released, has a release date that parses and
      lies in the window, and is one of the response's versions. */
  lemma {:induction false} ReleasesInRangeSound(response: Option<Json>, startDate: string, endDate: string, j: int)
    requires 0 <= j < |ReleasesInRange(response, startDate, endDate)|
    ensures var v := ReleasesInRange(response, startDate, endDate)[j];
      var rd := GetOr(v, "releaseDate", JNull);
      Truthy(GetOr(v, "released", JBool(false))) && rd.JStr? && IsSomeInWindow(rd.s, startDate, endDate)
      && response.Some? && Elements(response.value).Ok? && JObj(v) in Elements(response.value).value
  {
    var vs := Elements(response.value).value;
    UpToRaiseSound(vs, VersionStep(startDate, endDate), j);
    var i :| 0 <= i < |vs| && NoneRaise(vs[..i + 1], VersionStep(startDate, endDate))
             && VersionStep(startDate, endDate)(vs[i]) == Ok(Some(ReleasesInRange(response, startDate, endDate)[j]));
    assert vs[i] == JObj(ReleasesInRange(response, startDate, endDate)[j]);
  }

  /** When no version raises, every released version whose date lies in the
      window is returned. */
  lemma {:induction false} ReleasesInRangeComplete(response: Option<Json>, startDate: string, endDate: string, i: int)
    requires response.Some? && Elements(response.value).Ok?
    requires NoneRaise(Elements(response.value).value, VersionStep(startDate, endDate))
    requires 0 <= i < |Elements(response.value).value|
    requires var v := Elements(response.value).value[i];
      v.JObj? && Truthy(GetOr(v.fields, "released", JBool(false)))
      && GetOr(v.fields, "releaseDate", JNull).JStr? && IsSomeInWindow(GetOr(v.fields, "releaseDate", JNull).s, startDate, endDate)
    ensures Elements(response.value).value[i].fields in ReleasesInRange(response, startDate, endDate)
  {
    var vs := Elements(response.value).value;
    NoneRaisePrefix(vs, VersionStep(startDate, endDate), i + 1);
    UpToRaiseComplete(vs, VersionStep(startDate, endDate), i, vs[i].fields);
  }

  /** A released version whose release date does not parse empties the whole
      result, versions accepted before it included. */
  lemma {:induction false} UnparsableDateDropsProject(response: Option<Json>, startDate: string, endDate: string, i: int)
    requires response.Some? && Elements(response.value).Ok? && 0 <= i < |Elements(response.value).value|
    requires var v := Elements(response.value).value[i];
      v.JObj? && Truthy(GetOr(v.fields, "released", JBool(false)))
      && GetOr(v.fields, "releaseDate", JNull).JStr? && GetOr(v.fields, "releaseDate", JNull) != JStr("")
      && ParseYmd(GetOr(v.fields, "releaseDate", JNull).s).None?
    ensures ReleasesInRange(response, startDate, endDate) == []
  {
    assert !VersionStep(startDate, endDate)(Elements(response.value).value[i]).Ok?;
  }

  // ---------------------------------------------------------------------
  // fetch_releases_and_issues_multiple_projects

  /** `[key.strip() for key in project_keys_str.split(',') if key.strip()]`. */
  function ParseProjectKeys(s: string): (r: seq<string>)
    ensures forall i :: 0 <= i < |r| ==> r[i] != ""
    ensures forall k :: k in r <==> k in SplitTrim(s) && k != ""
  {
    NonEmpty(SplitTrim(s))
  }

  /** The non-empty strings of `xs`, in order. */
  function NonEmpty(xs: seq<string>): (r: seq<string>)
    ensures forall i :: 0 <= i < |r| ==> r[i] != ""
    ensures forall k :: k in r <==> k in xs && k != ""
    ensures |r| <= |xs|
    ensures (forall i :: 0 <= i < |xs| ==> xs[i] != "") ==> r == xs
  {
    if xs == [] then []
    else (if xs[0] != "" then [xs[0]] else []) + NonEmpty(xs[1..])
  }

  /** The filter keeps order and multiplicity: filtering a concatenation
      filters each half. */
  lemma {:induction false} NonEmptyAppend(xs: seq<string>, ys: seq<string>)
    ensures NonEmpty(xs + ys) == NonEmpty(xs) + NonEmpty(ys)
    decreases |xs|
  {
    if xs == [] {
      assert xs + ys == ys;
    } else {
      assert (xs + ys)[1..] == xs[1..] + ys;
      NonEmptyAppend(xs[1..], ys);
    }
  }

  /** Appending one string keeps the earlier result and adds the string when
      it is not empty. */
  lemma {:induction false} NonEmptySnoc(xs: seq<string>, x: string)
    ensures NonEmpty(xs + [x]) == NonEmpty(xs) + (if x != "" then [x] else [])
  {
    NonEmptyAppend(xs, [x]);
    assert [x][1..] == [];
  }

  /** Keys written out comma-separated, without surrounding whitespace, are
      parsed back to exactly those keys, in order; the empty string gives no
      keys. */
  lemma {:induction false} ParseProjectKeysJoin(keys: seq<string>)
    requires forall i :: 0 <= i < |keys| ==> keys[i] != "" && ',' !in keys[i] && Strip(keys[i]) == keys[i]
    ensures ParseProjectKeys(Join(",", keys)) == keys
  {
    if keys == [] {
      assert Find("", [','], 0) == -1;
      assert Split("", ',') == [""];
      assert SplitTrim("") == [Strip("")];
    } else {
      SplitJoin(keys, ',');
      assert SplitTrim(Join(",", keys)) == keys;
    }
  }

  /** One release's row of the releases sheet. */
  function ReleaseRow(projectKey: string, release: map<string, Json>): map<string, Json>
  {
    map[
      "version" := GetOr(release, "name", JStr("")),
      "status" := JStr(if Truthy(GetOr(release, "released", JBool(false))) then "Released" else "Unreleased"),
      "start_date" := GetOr(release, "startDate", JStr("")),
      "release_date" := GetOr(release, "releaseDate", JStr("")),
      "description" := GetOr(release, "description", JStr("")),
      "project_key" := JStr(projectKey)]
  }

  /** `issue_data` with the release and the project written over it. */
  function TaggedIssue(issueData: map<string, Json>, projectKey: string, release: map<string, Json>): map<string, Json>
  {
    issueData["release_version" := GetOr(release, "name", JStr(""))]
             ["release_date" := GetOr(release, "releaseDate", JStr(""))]
             ["project_key" := JStr(projectKey)]
  }

  /** The loop body for one issue of a release: Raised when
      `extract_issue_data` raises. */
  function IssueStep(projectKey: string, release: map<string, Json>, repr: Renderer): Json -> Result<Option<map<string, Json>>>
  {
    issue => match IssueData(issue, repr)
             case Raised => Raised
             case Ok(d) => Ok(Some(TaggedIssue(d, projectKey, release)))
  }

  /** The rows gathered so far, and for one project whether an exception
      ended its loop. */
  datatype Collected = Collected(releases: seq<map<string, Json>>, issues: seq<map<string, Json>>, stopped: bool)

  /** The release loop of one project inside its `try`, for the row
      `rowOf` appended for a release, the issues `issuesOf` fetched for it and
      the loop body `stepOf` applied to each of them: the rows appended before
      an exception stay, and the exception ends the loop. */
  function Gather(releases: seq<map<string, Json>>, rowOf: map<string, Json> -> map<string, Json>,
                  issuesOf: map<string, Json> -> seq<Json>,
                  stepOf: map<string, Json> -> (Json -> Result<Option<map<string, Json>>>)): Collected
  {
    if releases == [] then Collected([], [], false)
    else
      var before := Gather(releases[..|releases| - 1], rowOf, issuesOf, stepOf);
      if before.stopped then before
      else
        var release := releases[|releases| - 1];
        Collected(before.releases + [rowOf(release)], before.issues + UpToRaise(issuesOf(release), stepOf(release)),
                  !NoneRaise(issuesOf(release), stepOf(release)))
  }

  /** What one project's `try` block appends. */
  function ProjectCollected(projectKey: string, releases: seq<map<string, Json>>,
                            fetchIssues: (string, Json) -> seq<Json>, repr: Renderer): Collected
  {
    Gather(releases, r => ReleaseRow(projectKey, r), r => fetchIssues(projectKey, GetOr(r, "name", JStr(""))),
           r => IssueStep(projectKey, r, repr))
  }

  /** The rows of several projects, one after the other. */
  function Concat(projectKeys: seq<string>, project: string -> Collected): Collected
  {
    if projectKeys == [] then Collected([], [], false)
    else
      var before := Concat(projectKeys[..|projectKeys| - 1], project);
      var c := project(projectKeys[|projectKeys| - 1]);
      Collected(before.releases + c.releases, before.issues + c.issues, false)
  }

  /** One project's rows, for its versions as `get_releases_in_date_range`
      returns them; `fetchVersions` gives the decoded versions response of a
      project (None when the request failed). */
  function ProjectOf(fetchVersions: string -> Option<Json>, fetchIssues: (string, Json) -> seq<Json>,
                     startDate: string, endDate: string, repr: Renderer): string -> Collected
  {
    p => ProjectCollected(p, ReleasesInRange(fetchVersions(p), startDate, endDate), fetchIssues, repr)
  }

  function AllCollected(projectKeys: seq<string>, fetchVersions: string -> Option<Json>,
                        fetchIssues: (string, Json) -> seq<Json>, startDate: string, endDate: string,
                        repr: Renderer): Collected
  {
    Concat(projectKeys, ProjectOf(fetchVersions, fetchIssues, startDate, endDate, repr))
  }

  const ReleaseColumns: seq<string> := ["project_key", "version", "status", "start_date", "release_date", "description"]

  const IssueColumns: seq<string> := [
    "project_key", "release_version", "release_date", "issue_key", "summary",
    "priority", "issue_type", "assignee", "reporter", "status", "resolution",
    "fix_versions", "labels", "sdlc_information", "application_name",
    "story_points", "sprint", "acceptance_criteria", "feature_link",
    "notes", "description"]

  /** The two DataFrames. Every release row has exactly the six release
      columns and every issue record exactly the columns of `issues_columns`
      (`ReleaseRowsReleased`, `IssueRowsTagged`), so the reordering keeps
      every cell and `existing_columns` is the whole list
      (`SheetOrderKeepsCells`). */
  function FetchReleasesAndIssues(projectKeysStr: string, fetchVersions: string -> Option<Json>,
                                  fetchIssues: (string, Json) -> seq<Json>, startDate: string, endDate: string,
                                  repr: Renderer): (Table, Table)
  {
    var c := AllCollected(ParseProjectKeys(projectKeysStr), fetchVersions, fetchIssues, startDate, endDate, repr);
    (if c.releases == [] then Empty else Table(ReleaseColumns, c.releases),
     if c.issues == [] then Empty else Table(IssueColumns, c.issues))
  }

  /** `fetch_releases_and_issues_multiple_projects(project_keys_str,
      start_date, end_date)` with the two requests as parameters. */
  method FetchReleasesAndIssuesMultipleProjects(projectKeysStr: string, fetchVersions: string -> Option<Json>,
                                                fetchIssues: (string, Json) -> seq<Json>, startDate: string,
                                                endDate: string, repr: Renderer)
    returns (releasesDf: Table, issuesDf: Table)
    ensures (releasesDf, issuesDf) == FetchReleasesAndIssues(projectKeysStr, fetchVersions, fetchIssues, startDate, endDate, repr)
  {
    var projectKeys := ParseProjectKeys(projectKeysStr);
    ghost var project := ProjectOf(fetchVersions, fetchIssues, startDate, endDate, repr);
    var allReleasesData: seq<map<string, Json>> := [];
    var allIssuesData: seq<map<string, Json>> := [];
    for p := 0 to |projectKeys|
      invariant Collected(allReleasesData, allIssuesData, false) == Concat(projectKeys[..p], project)
    {
      assert projectKeys[..p + 1][..p] == projectKeys[..p];
      var projectKey := projectKeys[p];
      var releases := GetReleasesInDateRange(fetchVersions(projectKey), startDate, endDate);
      var c := ProcessProject(projectKey, releases, fetchIssues, repr);
      assert c == project(projectKey);
      allReleasesData := allReleasesData + c.releases;
      allIssuesData := allIssuesData + c.issues;
    }
    assert projectKeys[..|projectKeys|] == projectKeys;
    releasesDf := if allReleasesData == [] then Empty else Table(ReleaseColumns, allReleasesData);
    issuesDf := if allIssuesData == [] then Empty else Table(IssueColumns, allIssuesData);
  }

  /** The `try` block of one project: the loop over its releases, left at the
      first exception. */
  method ProcessProject(projectKey: string, releases: seq<map<string, Json>>,
                        fetchIssues: (string, Json) -> seq<Json>, repr: Renderer) returns (c: Collected)
    ensures c == ProjectCollected(projectKey, releases, fetchIssues, repr)
  {
    ghost var rowOf := r => ReleaseRow(projectKey, r);
    ghost var issuesOf := r => fetchIssues(projectKey, GetOr(r, "name", JStr("")));
    ghost var stepOf := r => IssueStep(projectKey, r, repr);
    var releasesData: seq<map<string, Json>> := [];
    var issuesData: seq<map<string, Json>> := [];
    var k := 0;
    while k < |releases|
      invariant 0 <= k <= |releases|
      invariant Gather(releases[..k], rowOf, issuesOf, stepOf) == Collected(releasesData, issuesData, false)
    {
      var release := releases[k];
      assert releases[..k + 1][..k] == releases[..k];
      releasesData := releasesData + [ReleaseRow(projectKey, release)];
      var issues := fetchIssues(projectKey, GetOr(release, "name", JStr("")));
      var rows, raised := ReleaseIssues(projectKey, release, issues, repr);
      issuesData := issuesData + rows;
      if raised {
        StoppedStays(releases, rowOf, issuesOf, stepOf, k + 1);
        return Collected(releasesData, issuesData, true);
      }
      k := k + 1;
    }
    assert releases[..k] == releases;
    c := Collected(releasesData, issuesData, false);
  }

  /** The loop over one release's issues: the tagged records before the first
      issue that raises, and whether one did. */
  method ReleaseIssues(projectKey: string, release: map<string, Json>, issues: seq<Json>, repr: Renderer)
    returns (rows: seq<map<string, Json>>, raised: bool)
    ensures rows == UpToRaise(issues, IssueStep(projectKey, release, repr))
    ensures raised <==> !NoneRaise(issues, IssueStep(projectKey, release, repr))
  {
    ghost var step := IssueStep(projectKey, release, repr);
    rows := [];
    var i := 0;
    while i < |issues|
      invariant 0 <= i <= |issues|
      invariant NoneRaise(issues[..i], step)
      invariant rows == UpToRaise(issues[..i], step)
    {
      var row := TaggedIssueData(issues[i], projectKey, release, repr);
      if row.Raised? {
        UpToRaiseStopsAt(issues, step, i);
        return rows, true;
      }
      UpToRaiseNext(issues, step, i);
      rows := rows + [row.value.value];
      i := i + 1;
    }
    assert issues[..i] == issues;
    raised := false;
  }

  /** One iteration of the issue loop: `extract_issue_data`, then the three
      assignments. */
  method TaggedIssueData(issue: Json, projectKey: string, release: map<string, Json>, repr: Renderer)
    returns (r: Result<Option<map<string, Json>>>)
    ensures r == IssueStep(projectKey, release, repr)(issue)
    ensures r.Ok? ==> r.value.Some?
  {
    var issueData := ExtractIssueData(issue, repr);
    if issueData.Raised? {
      return Raised;
    }
    var d := issueData.value;
    d := d["release_version" := GetOr(release, "name", JStr(""))];
    d := d["release_date" := GetOr(release, "releaseDate", JStr(""))];
    d := d["project_key" := JStr(projectKey)];
    r := Ok(Some(d));
  }

  /** Once an exception has ended a project's loop, its later releases add
      nothing. */
  lemma {:induction false} StoppedStays(releases: seq<map<string, Json>>, rowOf: map<string, Json> -> map<string, Json>,
                                        issuesOf: map<string, Json> -> seq<Json>,
                                        stepOf: map<string, Json> -> (Json -> Result<Option<map<string, Json>>>), n: int)
    requires 0 <= n <= |releases| && Gather(releases[..n], rowOf, issuesOf, stepOf).stopped
    ensures Gather(releases, rowOf, issuesOf, stepOf) == Gather(releases[..n], rowOf, issuesOf, stepOf)
    decreases |releases|
  {
    if n < |releases| {
      var init := releases[..|releases| - 1];
      assert init[..n] == releases[..n];
      StoppedStays(init, rowOf, issuesOf, stepOf, n);
    } else {
      assert releases[..n] == releases;
    }
  }

  /** The loop appends one row per release, in order, up to and including
      the release whose issues raised; all of them when none raised. */
  lemma {:induction false} GatherReleaseRows(releases: seq<map<string, Json>>, rowOf: map<string, Json> -> map<string, Json>,
                                             issuesOf: map<string, Json> -> seq<Json>,
                                             stepOf: map<string, Json> -> (Json -> Result<Option<map<string, Json>>>), j: int)
    ensures var c := Gather(releases, rowOf, issuesOf, stepOf);
            |c.releases| <= |releases| && (!c.stopped ==> |c.releases| == |releases|)
            && (0 <= j < |c.releases| ==> c.releases[j] == rowOf(releases[j]))
  {
    if releases != [] {
      var init := releases[..|releases| - 1];
      GatherReleaseRows(init, rowOf, issuesOf, stepOf, j);
      if 0 <= j < |init| {
        assert init[j] == releases[j];
      }
    }
  }

  /** Every issue row is what the loop body made of one of the issues of one
      of the releases. */
  lemma {:induction false} GatherIssueRows(releases: seq<map<string, Json>>, rowOf: map<string, Json> -> map<string, Json>,
                                           issuesOf: map<string, Json> -> seq<Json>,
                                           stepOf: map<string, Json> -> (Json -> Result<Option<map<string, Json>>>), j: int)
    requires 0 <= j < |Gather(releases, rowOf, issuesOf, stepOf).issues|
    ensures exists k, x :: 0 <= k < |releases| && x in issuesOf(releases[k])
              && stepOf(releases[k])(x) == Ok(Some(Gather(releases, rowOf, issuesOf, stepOf).issues[j]))
  {
    var init := releases[..|releases| - 1];
    var before := Gather(init, rowOf, issuesOf, stepOf);
    if j < |before.issues| {
      GatherIssueRows(init, rowOf, issuesOf, stepOf, j);
      var k, x :| 0 <= k < |init| && x in issuesOf(init[k]) && stepOf(init[k])(x) == Ok(Some(before.issues[j]));
      assert init[k] == releases[k];
    } else {
      var k := |releases| - 1;
      var issues := issuesOf(releases[k]);
      UpToRaiseSound(issues, stepOf(releases[k]), j - |before.issues|);
      var i :| 0 <= i < |issues| && NoneRaise(issues[..i + 1], stepOf(releases[k]))
               && stepOf(releases[k])(issues[i]) == Ok(Some(UpToRaise(issues, stepOf(releases[k]))[j - |before.issues|]));
      assert issues[i] in issues;
    }
  }

  /** Every release row of several projects is a release row of one of them. */
  lemma {:induction false} ConcatReleases(projectKeys: seq<string>, project: string -> Collected, j: int)
    requires 0 <= j < |Concat(projectKeys, project).releases|
    ensures exists p, i :: p in projectKeys && 0 <= i < |project(p).releases|
              && Concat(projectKeys, project).releases[j] == project(p).releases[i]
  {
    var init := projectKeys[..|projectKeys| - 1];
    var before := Concat(init, project);
    if j < |before.releases| {
      ConcatReleases(init, project, j);
      var p, i :| p in init && 0 <= i < |project(p).releases| && before.releases[j] == project(p).releases[i];
      assert p in projectKeys;
    } else {
      var p := projectKeys[|projectKeys| - 1];
      assert p in projectKeys;
      assert Concat(projectKeys, project).releases[j] == project(p).releases[j - |before.releases|];
    }
  }

  /** Every issue row of several projects is an issue row of one of them. */
  lemma {:induction false} ConcatIssues(projectKeys: seq<string>, project: string -> Collected, j: int)
    requires 0 <= j < |Concat(projectKeys, project).issues|
    ensures exists p, i :: p in projectKeys && 0 <= i < |project(p).issues|
              && Concat(projectKeys, project).issues[j] == project(p).issues[i]
  {
    var init := projectKeys[..|projectKeys| - 1];
    var before := Concat(init, project);
    if j < |before.issues| {
      ConcatIssues(init, project, j);
      var p, i :| p in init && 0 <= i < |project(p).issues| && before.issues[j] == project(p).issues[i];
      assert p in projectKeys;
    } else {
      var p := projectKeys[|projectKeys| - 1];
      assert p in projectKeys;
      assert Concat(projectKeys, project).issues[j] == project(p).issues[j - |before.issues|];
    }
  }

  const ReleaseColumnSet: set<string> := {"project_key", "version", "status", "start_date", "release_date", "description"}

  const IssueColumnSet: set<string> := IssueDataKeySet + {"release_version", "release_date", "project_key"}

  lemma {:induction false} ReleaseColumnsExact(k: string)
    ensures k in ReleaseColumns <==> k in ReleaseColumnSet
  {
  }

  lemma {:induction false} IssueColumnsExact(k: string)
    ensures k in IssueColumns <==> k in IssueColumnSet
  {
  }

  /** A row of the releases sheet as `get_releases_in_date_range` lets
      through: exactly the six release columns, status Released, one of the
      listed projects, a release date in the window. */
  predicate IsReleasedRow(row: map<string, Json>, projectKeys: seq<string>, startDate: string, endDate: string)
  {
    row.Keys == ReleaseColumnSet
    && row["status"] == JStr("Released")
    && row["project_key"].JStr? && row["project_key"].s in projectKeys
    && row["release_date"].JStr? && IsSomeInWindow(row["release_date"].s, startDate, endDate)
  }

  lemma {:induction false} ReleaseRowOf(p: string, r: map<string, Json>, projectKeys: seq<string>, startDate: string, endDate: string)
    requires p in projectKeys && Truthy(GetOr(r, "released", JBool(false)))
    requires GetOr(r, "releaseDate", JNull).JStr? && IsSomeInWindow(GetOr(r, "releaseDate", JNull).s, startDate, endDate)
    ensures IsReleasedRow(ReleaseRow(p, r), projectKeys, startDate, endDate)
  {
    assert "releaseDate" in r;
  }

  /** Every row of the releases sheet is a Released version of one of the
      listed projects whose release date lies in the window. The
      `'Unreleased'` branch is never taken, because
      `get_releases_in_date_range` keeps released versions only. */
  lemma {:induction false} ReleaseRowsReleased(projectKeysStr: string, fetchVersions: string -> Option<Json>,
                            fetchIssues: (string, Json) -> seq<Json>, startDate: string, endDate: string,
                            repr: Renderer, j: int)
    requires 0 <= j < |AllCollected(ParseProjectKeys(projectKeysStr), fetchVersions, fetchIssues, startDate, endDate, repr).releases|
    ensures IsReleasedRow(AllCollected(ParseProjectKeys(projectKeysStr), fetchVersions, fetchIssues, startDate, endDate, repr).releases[j],
                          ParseProjectKeys(projectKeysStr), startDate, endDate)
  {
    var keys := ParseProjectKeys(projectKeysStr);
    var project := ProjectOf(fetchVersions, fetchIssues, startDate, endDate, repr);
    ConcatReleases(keys, project, j);
    var p, i :| p in keys && 0 <= i < |project(p).releases|
                && Concat(keys, project).releases[j] == project(p).releases[i];
    var releases := ReleasesInRange(fetchVersions(p), startDate, endDate);
    GatherReleaseRows(releases, r => ReleaseRow(p, r), r => fetchIssues(p, GetOr(r, "name", JStr(""))),
                      r => IssueStep(p, r, repr), i);
    ReleasesInRangeSound(fetchVersions(p), startDate, endDate, i);
    ReleaseRowOf(p, releases[i], keys, startDate, endDate);
  }

  /** A row of the issues sheet: exactly the columns of `issues_columns`,
      tagged with one of the listed projects and the name and release date of
      one of that project's returned versions. */
  predicate IsTaggedRow(row: map<string, Json>, projectKeys: seq<string>, fetchVersions: string -> Option<Json>,
                        startDate: string, endDate: string)
  {
    row.Keys == IssueColumnSet
    && exists p, r :: p in projectKeys && r in ReleasesInRange(fetchVersions(p), startDate, endDate)
                      && row["project_key"] == JStr(p) && row["release_version"] == GetOr(r, "name", JStr(""))
                      && row["release_date"] == GetOr(r, "releaseDate", JStr(""))
  }

  lemma {:induction false} IssueDataKeySetIs(x: Json, repr: Renderer)
    requires IssueData(x, repr).Ok?
    ensures IssueData(x, repr).value.Keys == IssueDataKeySet
  {
    forall k ensures k in IssueData(x, repr).value <==> k in IssueDataKeySet {
      IssueDataKeys(x, repr, k);
    }
  }

  /** Every row of the issues sheet is the record of an issue of one of the
      listed projects' returned versions, tagged with that version and
      project. */
  lemma {:induction false} IssueRowsTagged(projectKeysStr: string, fetchVersions: string -> Option<Json>,
                        fetchIssues: (string, Json) -> seq<Json>, startDate: string, endDate: string,
                        repr: Renderer, j: int)
    requires 0 <= j < |AllCollected(ParseProjectKeys(projectKeysStr), fetchVersions, fetchIssues, startDate, endDate, repr).issues|
    ensures IsTaggedRow(AllCollected(ParseProjectKeys(projectKeysStr), fetchVersions, fetchIssues, startDate, endDate, repr).issues[j],
                        ParseProjectKeys(projectKeysStr), fetchVersions, startDate, endDate)
  {
    var keys := ParseProjectKeys(projectKeysStr);
    var project := ProjectOf(fetchVersions, fetchIssues, startDate, endDate, repr);
    ConcatIssues(keys, project, j);
    var p, i :| p in keys && 0 <= i < |project(p).issues|
                && Concat(keys, project).issues[j] == project(p).issues[i];
    var releases := ReleasesInRange(fetchVersions(p), startDate, endDate);
    ProjectIssueTagged(p, releases, fetchIssues, repr, i);
    var k, x :| 0 <= k < |releases| && IssueData(x, repr).Ok?
                && ProjectCollected(p, releases, fetchIssues, repr).issues[i] == TaggedIssue(IssueData(x, repr).value, p, releases[k]);
    assert releases[k] in releases;
    IssueDataKeySetIs(x, repr);
    TaggedRowOf(IssueData(x, repr).value, p, releases[k], keys, fetchVersions, startDate, endDate);
  }

  lemma {:induction false} TaggedRowOf(d: map<string, Json>, p: string, r: map<string, Json>, projectKeys: seq<string>,
                    fetchVersions: string -> Option<Json>, startDate: string, endDate: string)
    requires d.Keys == IssueDataKeySet && p in projectKeys && r in ReleasesInRange(fetchVersions(p), startDate, endDate)
    ensures IsTaggedRow(TaggedIssue(d, p, r), projectKeys, fetchVersions, startDate, endDate)
  {
  }

  /** Every issue row of one project is the record of an issue fetched for
      one of the project's releases, tagged with that release. */
  lemma {:induction false} ProjectIssueTagged(p: string, releases: seq<map<string, Json>>, fetchIssues: (string, Json) -> seq<Json>,
                           repr: Renderer, i: int)
    requires 0 <= i < |ProjectCollected(p, releases, fetchIssues, repr).issues|
    ensures exists k, x :: 0 <= k < |releases| && x in fetchIssues(p, GetOr(releases[k], "name", JStr("")))
              && IssueData(x, repr).Ok?
              && ProjectCollected(p, releases, fetchIssues, repr).issues[i] == TaggedIssue(IssueData(x, repr).value, p, releases[k])
  {
    var stepOf := r => IssueStep(p, r, repr);
    GatherIssueRows(releases, r => ReleaseRow(p, r), r => fetchIssues(p, GetOr(r, "name", JStr(""))), stepOf, i);
    var k, x :| 0 <= k < |releases| && x in fetchIssues(p, GetOr(releases[k], "name", JStr("")))
                && stepOf(releases[k])(x) == Ok(Some(ProjectCollected(p, releases, fetchIssues, repr).issues[i]));
    assert IssueData(x, repr).Ok?;
  }

  /** The column reordering of both sheets keeps every cell: whatever the
      column lists `releaseCols` and `issueCols` of the DataFrames built from
      the rows (each has every key of every row), selecting the six release
      columns and `existing_columns` gives the rows unchanged under exactly
      those column lists. */
  lemma {:induction false} SheetOrderKeepsCells(projectKeysStr: string, fetchVersions: string -> Option<Json>,
                             fetchIssues: (string, Json) -> seq<Json>, startDate: string, endDate: string,
                             repr: Renderer, releaseCols: seq<string>, issueCols: seq<string>)
    requires var c := AllCollected(ParseProjectKeys(projectKeysStr), fetchVersions, fetchIssues, startDate, endDate, repr);
      (forall i, k :: 0 <= i < |c.releases| && k in c.releases[i] ==> k in releaseCols)
      && (forall i, k :: 0 <= i < |c.issues| && k in c.issues[i] ==> k in issueCols)
    ensures var c := AllCollected(ParseProjectKeys(projectKeysStr), fetchVersions, fetchIssues, startDate, endDate, repr);
      var sheets := FetchReleasesAndIssues(projectKeysStr, fetchVersions, fetchIssues, startDate, endDate, repr);
      (c.releases != [] ==> SelectPresent(Table(releaseCols, c.releases), ReleaseColumns) == sheets.0)
      && (c.issues != [] ==> SelectPresent(Table(issueCols, c.issues), IssueColumns) == sheets.1)
  {
    var c := AllCollected(ParseProjectKeys(projectKeysStr), fetchVersions, fetchIssues, startDate, endDate, repr);
    if c.releases != [] {
      ReleaseRowsReleased(projectKeysStr, fetchVersions, fetchIssues, startDate, endDate, repr, 0);
      forall i | 0 <= i < |ReleaseColumns| ensures ReleaseColumns[i] in releaseCols {
        ReleaseColumnsExact(ReleaseColumns[i]);
        assert ReleaseColumns[i] in c.releases[0];
      }
      forall i, k | 0 <= i < |c.releases| && k in c.releases[i] ensures k in ReleaseColumns {
        ReleaseRowsReleased(projectKeysStr, fetchVersions, fetchIssues, startDate, endDate, repr, i);
        ReleaseColumnsExact(k);
      }
      SelectKeepsRows(Table(releaseCols, c.releases), ReleaseColumns);
    }
    if c.issues != [] {
      IssueRowsTagged(projectKeysStr, fetchVersions, fetchIssues, startDate, endDate, repr, 0);
      forall i | 0 <= i < |IssueColumns| ensures IssueColumns[i] in issueCols {
        IssueColumnsExact(IssueColumns[i]);
        assert IssueColumns[i] in c.issues[0];
      }
      forall i, k | 0 <= i < |c.issues| && k in c.issues[i] ensures k in IssueColumns {
        IssueRowsTagged(projectKeysStr, fetchVersions, fetchIssues, startDate, endDate, repr, i);
        IssueColumnsExact(k);
      }
      SelectKeepsRows(Table(issueCols, c.issues), IssueColumns);
    }
  }
}
