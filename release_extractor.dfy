/** `JiraReleaseExtractor` of main_v4_fetch_all_issues.py, whose version
    filter, issue records, sprint reading and release-data merge
    main_v6_keyword_match.py repeats line for line. */
module ReleaseExtractor {
  import opened Outcome
  import opened Json
  import opened Text
  import opened Dates
  import opened SprintText
  import opened Tables

  // ---------------------------------------------------------------------
  // self.custom_fields

  const SdlcInformationId: string := "customfield_15600"
  const ApplicationNameId: string := "customfield_11700"
  const StoryPointsId: string := "customfield_10106"
  const SprintId: string := "customfield_10104"
  const AcceptanceCriteriaId: string := "customfield_10601"
  const FeatureLinkId: string := "customfield_10100"
  const NotesId: string := "customfield_10602"

  // ---------------------------------------------------------------------
  // _extract_sprint_info

  /** `_extract_sprint_info(sprint_data)`: only the last element of a list is
      read, a dictionary gives its `name` as it is, and everything else falls
      through to `str(sprint_data)`. */
  function LatestSprint(sd: Json, repr: Renderer): (r: Json)
    ensures !Truthy(sd) ==> r == JStr("")
  {
    if !Truthy(sd) then JStr("")
    else if sd.JArr? && sd.items[|sd.items| - 1].JStr? && Contains(sd.items[|sd.items| - 1].s, "name=") then
      JStr(ValueAfter(sd.items[|sd.items| - 1].s, "name="))
    else if sd.JArr? && sd.items[|sd.items| - 1].JObj? then
      GetOr(sd.items[|sd.items| - 1].fields, "name", JStr(""))
    else JStr(Str(sd, repr))
  }

  /** Only the last element of a sprint list matters when it is a dictionary
      or a string with `name=`: the earlier elements are never read. */
  lemma {:induction false} LatestSprintLastOnly(xs: seq<Json>, ys: seq<Json>, x: Json, repr: Renderer)
    requires x.JObj? || (x.JStr? && Contains(x.s, "name="))
    ensures LatestSprint(JArr(xs + [x]), repr) == LatestSprint(JArr(ys + [x]), repr)
    ensures x.JObj? ==> LatestSprint(JArr(xs + [x]), repr) == GetOr(x.fields, "name", JStr(""))
  {
    assert (xs + [x])[|xs + [x]| - 1] == x;
    assert (ys + [x])[|ys + [x]| - 1] == x;
  }

  /** A legacy descriptor as the last element gives its name, without the
      state suffix main_v3.py adds. */
  lemma {:induction false} LatestSprintLegacy(earlier: seq<Json>, head: string, id: string, name: string, state: string, rest: string, repr: Renderer)
    requires '=' !in head && '=' !in id && '=' !in name && ',' !in name
    ensures LatestSprint(JArr(earlier + [JStr(LegacySprintText(head, id, name, state, rest))]), repr) == JStr(name)
  {
    var s := LegacySprintText(head, id, name, state, rest);
    var items := earlier + [JStr(s)];
    assert items[|items| - 1] == JStr(s);
    LegacyNameAfter(head, id, name, state, rest);
  }

  /** A plain string is returned unchanged (as `str(sprint_data)`), and so is
      a descriptor that is not a list. */
  lemma {:induction false} LatestSprintPlainString(s: string, repr: Renderer)
    ensures LatestSprint(JStr(s), repr) == JStr(s)
  {
  }

  /** A list whose last element is neither a dictionary nor a string with
      `name=` becomes `str(list)`. */
  lemma {:induction false} LatestSprintFallsThrough(items: seq<Json>, repr: Renderer)
    requires items != []
    requires !items[|items| - 1].JObj?
    requires !(items[|items| - 1].JStr? && Contains(items[|items| - 1].s, "name="))
    ensures LatestSprint(JArr(items), repr) == JStr(repr(JArr(items)))
  {
  }

  /** A last sprint dictionary without `name` gives `''` even when it has an
      `id` (main_v3.py gives `"Sprint {id}"` there). */
  lemma {:induction false} LatestSprintIdOnly(repr: Renderer)
    ensures LatestSprint(JArr([JObj(map["id" := JNum(5)])]), repr) == JStr("")
  {
  }

  // ---------------------------------------------------------------------
  // get_project_versions

  /** One entry of `versions_data`. */
  datatype VersionInfo = VersionInfo(
    projectKey: string,
    versionId: Json,
    versionName: Json,
    status: string,
    startDate: Json,
    releaseDate: Json,
    description: Json)

  /** The body of the loop over one project's versions. A version that is not
      a dictionary raises; so do a release date that is not a string or does
      not parse, an unparsable window bound, and, for a version inside the
      window, a missing `id` or `name`. */
  function VersionStep(projectKey: string, v: Json, startDate: string, endDate: string): Result<Option<VersionInfo>>
  {
    if !v.JObj? then Raised
    else if !Truthy(GetOr(v.fields, "released", JBool(false))) || !Truthy(GetOr(v.fields, "releaseDate", JNull)) then Ok(None)
    else
      var rd := v.fields["releaseDate"];
      if !rd.JStr? then Raised
      else
        var d := ParseYmd(rd.s);
        var s := ParseYmd(startDate);
        var e := ParseYmd(endDate);
        if d.None? || s.None? || e.None? then Raised
        else if !InWindow(d.value, s.value, e.value) then Ok(None)
        else if "id" !in v.fields || "name" !in v.fields then Raised
        else
          Ok(Some(VersionInfo(projectKey, v.fields["id"], v.fields["name"], "Released",
                              GetOr(v.fields, "startDate", JStr("")), rd,
                              GetOr(v.fields, "description", JStr("")))))
  }

  /** A version the loop keeps is a Released version of the project, whose
      release date parses and lies in the window. */
  lemma {:induction false} VersionStepKept(projectKey: string, v: Json, startDate: string, endDate: string)
    requires VersionStep(projectKey, v, startDate, endDate).Ok?
    requires VersionStep(projectKey, v, startDate, endDate).value.Some?
    ensures var kept := VersionStep(projectKey, v, startDate, endDate).value.value;
      kept.projectKey == projectKey && kept.status == "Released" && kept.releaseDate.JStr?
      && IsSomeInWindow(kept.releaseDate.s, startDate, endDate)
  {
  }

  /** The stepping function of one project's loop. */
  function StepFor(projectKey: string, startDate: string, endDate: string): Json -> Result<Option<VersionInfo>>
  {
    v => VersionStep(projectKey, v, startDate, endDate)
  }

  /** What one project contributes: its kept versions up to the first one that
      raises (the `except Exception` around the loop ends the project). */
  function ProjectVersions(projectKey: string, versions: seq<Json>, startDate: string, endDate: string): seq<VersionInfo>
  {
    UpToRaise(versions, StepFor(projectKey, startDate, endDate))
  }

  /** The versions of several projects; `fetched` gives each project's version
      list, None where the request failed. */
  function AllVersions(projects: seq<string>, fetched: string -> Option<seq<Json>>, startDate: string, endDate: string): seq<VersionInfo>
  {
    if projects == [] then []
    else
      var p := projects[|projects| - 1];
      AllVersions(projects[..|projects| - 1], fetched, startDate, endDate)
      + (if fetched(p).Some? then ProjectVersions(p, fetched(p).value, startDate, endDate) else [])
  }

  /** `get_project_versions(project_keys, start_date, end_date)` with its
      request as the parameter `fetched`. */
  method GetProjectVersions(projectKeys: seq<string>, fetched: string -> Option<seq<Json>>, startDate: string, endDate: string)
    returns (versionsData: seq<VersionInfo>)
    ensures versionsData == AllVersions(projectKeys, fetched, startDate, endDate)
  {
    versionsData := [];
    for p := 0 to |projectKeys|
      invariant versionsData == AllVersions(projectKeys[..p], fetched, startDate, endDate)
    {
      assert projectKeys[..p + 1][..p] == projectKeys[..p];
      var projectKey := projectKeys[p];
      var versions := fetched(projectKey);
      if versions.Some? {
        var kept := FilterVersions(projectKey, versions.value, startDate, endDate);
        versionsData := versionsData + kept;
      }
    }
    assert projectKeys[..|projectKeys|] == projectKeys;
  }

  /** The `try` around the loop over one project's versions. */
  method FilterVersions(projectKey: string, vs: seq<Json>, startDate: string, endDate: string)
    returns (kept: seq<VersionInfo>)
    ensures kept == ProjectVersions(projectKey, vs, startDate, endDate)
  {
    kept := CollectUpToRaise(vs, StepFor(projectKey, startDate, endDate));
  }

  /** Every version in the result is Released and its release date parses
      and lies in the window. */
  lemma {:induction false} AllVersionsSound(projects: seq<string>, fetched: string -> Option<seq<Json>>, startDate: string, endDate: string)
    ensures forall v :: v in AllVersions(projects, fetched, startDate, endDate) ==>
      v.status == "Released" && v.projectKey in projects
      && v.releaseDate.JStr? && IsSomeInWindow(v.releaseDate.s, startDate, endDate)
  {
    if projects != [] {
      var p := projects[|projects| - 1];
      AllVersionsSound(projects[..|projects| - 1], fetched, startDate, endDate);
      if fetched(p).Some? {
        var vs := fetched(p).value;
        var out := ProjectVersions(p, vs, startDate, endDate);
        forall j | 0 <= j < |out|
          ensures out[j].status == "Released" && out[j].projectKey == p
                  && out[j].releaseDate.JStr? && IsSomeInWindow(out[j].releaseDate.s, startDate, endDate)
        {
          UpToRaiseSound(vs, StepFor(p, startDate, endDate), j);
          var i :| 0 <= i < |vs| && NoneRaise(vs[..i + 1], StepFor(p, startDate, endDate))
                   && StepFor(p, startDate, endDate)(vs[i]) == Ok(Some(out[j]));
          VersionStepKept(p, vs[i], startDate, endDate);
        }
      }
    }
  }

  /** A version whose date fits the format: kept exactly when it is released,
      has a release date and that date lies in the window. */
  lemma {:induction false} VersionKeptIff(projectKey: string, m: map<string, Json>, startDate: string, endDate: string)
    requires "id" in m && "name" in m
    requires "releaseDate" in m && m["releaseDate"].JStr? && ParseYmd(m["releaseDate"].s).Some?
    requires ParseYmd(startDate).Some? && ParseYmd(endDate).Some?
    ensures VersionStep(projectKey, JObj(m), startDate, endDate).Ok?
    ensures VersionStep(projectKey, JObj(m), startDate, endDate).value.Some?
        <==> Truthy(GetOr(m, "released", JBool(false))) && m["releaseDate"] != JStr("")
             && IsSomeInWindow(m["releaseDate"].s, startDate, endDate)
  {
  }

  /** A released version whose release date does not parse raises, and the
      project's later versions are not read. */
  lemma {:induction false} UnparsableDateEndsProject(projectKey: string, before: seq<Json>, m: map<string, Json>, after: seq<Json>,
                                  startDate: string, endDate: string)
    requires NoneRaise(before, StepFor(projectKey, startDate, endDate))
    requires Truthy(GetOr(m, "released", JBool(false)))
    requires "releaseDate" in m && m["releaseDate"].JStr? && m["releaseDate"] != JStr("")
    requires ParseYmd(m["releaseDate"].s).None?
    ensures VersionStep(projectKey, JObj(m), startDate, endDate) == Raised
    ensures ProjectVersions(projectKey, before + [JObj(m)] + after, startDate, endDate)
         == ProjectVersions(projectKey, before, startDate, endDate)
  {
    UpToRaiseStops(before, JObj(m), after, StepFor(projectKey, startDate, endDate));
  }

  // ---------------------------------------------------------------------
  // get_issues_for_version, per issue

  /** The keys of `issue_info`, in the order the dictionary lists them. */
  const IssueInfoKeys: seq<string> := [
    "issue_key", "summary", "issue_type", "priority", "status", "resolution",
    "assignee", "reporter", "fix_versions", "labels", "description",
    "sdlc_information", "application_name", "story_points", "sprint",
    "acceptance_criteria", "feature_link", "notes", "version_name", "project_key"]

  /** The same keys as a set, for membership. */
  const IssueInfoKeySet: set<string> := {
    "issue_key", "summary", "issue_type", "priority", "status", "resolution",
    "assignee", "reporter", "fix_versions", "labels", "description",
    "sdlc_information", "application_name", "story_points", "sprint",
    "acceptance_criteria", "feature_link", "notes", "version_name", "project_key"}

  /** The values of `issue_info`, one per key. */
  datatype IssueRecord = IssueRecord(
    issueKey: Json, summary: Json, issueType: Json, priority: Json, status: Json,
    resolution: Json, assignee: Json, reporter: Json, fixVersions: Json, labels: Json,
    description: Json, sdlcInformation: Json, applicationName: Json, storyPoints: Json,
    sprint: Json, acceptanceCriteria: Json, featureLink: Json, notes: Json,
    versionName: Json, projectKey: Json)

  /** The value `issue_info` holds under `k`. */
  function FieldOf(rec: IssueRecord, k: string): Json
  {
    if k == "issue_key" then rec.issueKey
    else if k == "project_key" then rec.projectKey
    else if k == "version_name" then rec.versionName
    else if k == "summary" then rec.summary
    else if k == "issue_type" then rec.issueType
    else if k == "priority" then rec.priority
    else if k == "status" then rec.status
    else if k == "resolution" then rec.resolution
    else if k == "assignee" then rec.assignee
    else if k == "reporter" then rec.reporter
    else if k == "fix_versions" then rec.fixVersions
    else if k == "labels" then rec.labels
    else if k == "description" then rec.description
    else if k == "sdlc_information" then rec.sdlcInformation
    else if k == "application_name" then rec.applicationName
    else if k == "story_points" then rec.storyPoints
    else if k == "sprint" then rec.sprint
    else if k == "acceptance_criteria" then rec.acceptanceCriteria
    else if k == "feature_link" then rec.featureLink
    else rec.notes
  }

  /** The dictionary `issue_info` with its keys. */
  function AsDict(rec: IssueRecord): (r: map<string, Json>)
    ensures forall k :: k in r <==> k in IssueInfoKeySet
    ensures r["issue_key"] == rec.issueKey && r["project_key"] == rec.projectKey
            && r["version_name"] == rec.versionName
  {
    map k | k in IssueInfoKeySet :: FieldOf(rec, k)
  }

  /** `', '.join` of a list of values that must all be strings. */
  function JoinStrings(items: seq<Json>): (r: Result<string>)
    ensures (forall i :: 0 <= i < |items| ==> items[i].JStr?) ==> r == Ok(Join(", ", StringsOf(items)))
  {
    var strs :- AllStrings(items);
    assert strs == StringsOf(items);
    Ok(Join(", ", strs))
  }

  /** Fix versions are a list of dictionaries with a string `name`, and
      labels a list of strings. */
  predicate PlainLists(f: map<string, Json>)
  {
    var fv := GetOr(f, "fixVersions", JArr([]));
    var labels := GetOr(f, "labels", JArr([]));
    fv.JArr?
    && (forall i :: 0 <= i < |fv.items| ==>
          fv.items[i].JObj? && "name" in fv.items[i].fields && fv.items[i].fields["name"].JStr?)
    && labels.JArr? && forall i :: 0 <= i < |labels.items| ==> labels.items[i].JStr?
  }

  /** The names of the fix versions, in order, on plain lists. */
  function FixVersionNameList(f: map<string, Json>): (r: seq<string>)
    requires PlainLists(f)
  {
    var fv := GetOr(f, "fixVersions", JArr([]));
    seq(|fv.items|, i requires 0 <= i < |fv.items| => fv.items[i].fields["name"].s)
  }

  /** The labels, in order, on plain lists. */
  function LabelList(f: map<string, Json>): (r: seq<string>)
    requires PlainLists(f)
  {
    StringsOf(GetOr(f, "labels", JArr([])).items)
  }

  /** `', '.join([fv['name'] for fv in fields_data.get('fixVersions', [])])`
      and `', '.join(fields_data.get('labels', []))`. */
  function ListFields(f: map<string, Json>): (r: Result<(string, string)>)
    ensures PlainLists(f) ==> r == Ok((Join(", ", FixVersionNameList(f)), Join(", ", LabelList(f))))
  {
    var fixVersionItems :- Elements(GetOr(f, "fixVersions", JArr([])));
    var fixVersions :- SubscriptEach(fixVersionItems, "name");
    var fixText :- JoinStrings(fixVersions);
    var labels :- JoinJson(", ", GetOr(f, "labels", JArr([])));
    assert PlainLists(f) ==> StringsOf(fixVersions) == FixVersionNameList(f);
    Ok((fixText, labels))
  }

  /** issuetype, priority and status are absent or dictionaries, and
      resolution, assignee and reporter are falsy or dictionaries. */
  predicate NullFreeTypes(f: map<string, Json>)
  {
    ("issuetype" !in f || f["issuetype"].JObj?)
    && ("priority" !in f || f["priority"].JObj?)
    && ("status" !in f || f["status"].JObj?)
    && (var v := GetOr(f, "resolution", JNull); !Truthy(v) || v.JObj?)
    && (var v := GetOr(f, "assignee", JNull); !Truthy(v) || v.JObj?)
    && (var v := GetOr(f, "reporter", JNull); !Truthy(v) || v.JObj?)
  }

  /** The six values projected from an issue's standard fields. */
  datatype NamedValues = NamedValues(issueType: Json, priority: Json, status: Json,
                                     resolution: Json, assignee: Json, reporter: Json)

  /** issuetype, priority and status with `.get(k, {}).get('name', '')`, which
      raises on None; resolution, assignee and reporter with the null-safe
      projection. */
  function NamedFields(f: map<string, Json>): (r: Result<NamedValues>)
    ensures r.Ok? <==> NullFreeTypes(f)
    ensures r.Ok? && !Truthy(GetOr(f, "resolution", JNull)) ==> r.value.resolution == JStr("")
    ensures r.Ok? && !Truthy(GetOr(f, "assignee", JNull)) ==> r.value.assignee == JStr("")
    ensures r.Ok? && !Truthy(GetOr(f, "reporter", JNull)) ==> r.value.reporter == JStr("")
    ensures r.Ok? ==> (Get(GetOr(f, "issuetype", EmptyObj), "name", JStr("")) == Ok(r.value.issueType)
                       && Get(GetOr(f, "priority", EmptyObj), "name", JStr("")) == Ok(r.value.priority)
                       && Get(GetOr(f, "status", EmptyObj), "name", JStr("")) == Ok(r.value.status))
    ensures r.Ok? ==> (NullSafeGet(JObj(f), "resolution", "name") == Ok(r.value.resolution)
                       && NullSafeGet(JObj(f), "assignee", "displayName") == Ok(r.value.assignee)
                       && NullSafeGet(JObj(f), "reporter", "displayName") == Ok(r.value.reporter))
  {
    var issueType :- Get(GetOr(f, "issuetype", EmptyObj), "name", JStr(""));
    var priority :- Get(GetOr(f, "priority", EmptyObj), "name", JStr(""));
    var status :- Get(GetOr(f, "status", EmptyObj), "name", JStr(""));
    var resolution :- NullSafeGet(JObj(f), "resolution", "name");
    var assignee :- NullSafeGet(JObj(f), "assignee", "displayName");
    var reporter :- NullSafeGet(JObj(f), "reporter", "displayName");
    Ok(NamedValues(issueType, priority, status, resolution, assignee, reporter))
  }

  /** The `issue_info` record built for one issue (lines 146-177). The custom
      fields are copied raw, `''` only when absent; a None issuetype, priority
      or status raises. */
  function IssueInfo(issue: Json, projectKey: string, versionName: Json, repr: Renderer): (r: Result<IssueRecord>)
    ensures r.Ok? ==> issue.JObj? && "key" in issue.fields && r.value.issueKey == issue.fields["key"]
    ensures r.Ok? ==> r.value.projectKey == JStr(projectKey) && r.value.versionName == versionName
    ensures r.Ok? ==> GetOr(issue.fields, "fields", EmptyObj).JObj?
    ensures r.Ok? ==> var f := GetOr(issue.fields, "fields", EmptyObj).fields;
      NullFreeTypes(f)
      && r.value.sdlcInformation == GetOr(f, SdlcInformationId, JStr(""))
      && r.value.applicationName == GetOr(f, ApplicationNameId, JStr(""))
      && r.value.storyPoints == GetOr(f, StoryPointsId, JStr(""))
      && r.value.acceptanceCriteria == GetOr(f, AcceptanceCriteriaId, JStr(""))
      && r.value.featureLink == GetOr(f, FeatureLinkId, JStr(""))
      && r.value.notes == GetOr(f, NotesId, JStr(""))
      && r.value.sprint == LatestSprint(GetOr(f, SprintId, JNull), repr)
      && (!Truthy(GetOr(f, "resolution", JNull)) ==> r.value.resolution == JStr(""))
      && (!Truthy(GetOr(f, "assignee", JNull)) ==> r.value.assignee == JStr(""))
      && (!Truthy(GetOr(f, "reporter", JNull)) ==> r.value.reporter == JStr(""))
    ensures (issue.JObj? && "key" in issue.fields && GetOr(issue.fields, "fields", EmptyObj).JObj?
             && var f := GetOr(issue.fields, "fields", EmptyObj).fields; PlainLists(f) && NullFreeTypes(f))
            ==> r.Ok?
    ensures r.Ok? ==> var f := GetOr(issue.fields, "fields", EmptyObj).fields;
      ListFields(f).Ok? && NamedFields(f).Ok?
      && r.value.fixVersions == JStr(ListFields(f).value.0) && r.value.labels == JStr(ListFields(f).value.1)
      && r.value.issueType == NamedFields(f).value.issueType && r.value.priority == NamedFields(f).value.priority
      && r.value.status == NamedFields(f).value.status && r.value.resolution == NamedFields(f).value.resolution
      && r.value.assignee == NamedFields(f).value.assignee && r.value.reporter == NamedFields(f).value.reporter
    ensures r.Ok? && PlainLists(GetOr(issue.fields, "fields", EmptyObj).fields) ==>
      var f := GetOr(issue.fields, "fields", EmptyObj).fields;
      r.value.fixVersions == JStr(Join(", ", FixVersionNameList(f))) && r.value.labels == JStr(Join(", ", LabelList(f)))
  {
    var fieldsData :- Get(issue, "fields", EmptyObj);
    if !fieldsData.JObj? then Raised
    else
      var f := fieldsData.fields;
      var lists :- ListFields(f);
      var key :- Subscript(issue, "key");
      var named :- NamedFields(f);
      Ok(IssueRecord(key, GetOr(f, "summary", JStr("")), named.issueType, named.priority, named.status,
        named.resolution, named.assignee, named.reporter, JStr(lists.0), JStr(lists.1),
        GetOr(f, "description", JStr("")),
        GetOr(f, SdlcInformationId, JStr("")), GetOr(f, ApplicationNameId, JStr("")),
        GetOr(f, StoryPointsId, JStr("")), LatestSprint(GetOr(f, SprintId, JNull), repr),
        GetOr(f, AcceptanceCriteriaId, JStr("")), GetOr(f, FeatureLinkId, JStr("")),
        GetOr(f, NotesId, JStr("")), versionName, JStr(projectKey)))
  }

  /** A None issuetype, priority or status raises: those three are read
      without a guard. */
  lemma {:induction false} IssueInfoNullTypeRaises(issue: Json, projectKey: string, versionName: Json, repr: Renderer, key: string)
    requires issue.JObj? && GetOr(issue.fields, "fields", EmptyObj).JObj?
    requires key == "issuetype" || key == "priority" || key == "status"
    requires var f := GetOr(issue.fields, "fields", EmptyObj).fields; key in f && f[key] == JNull
    ensures IssueInfo(issue, projectKey, versionName, repr) == Raised
  {
  }

  /** The stepping function of the issue loop: every issue yields a record
      or raises. */
  function IssueStep(projectKey: string, versionName: Json, repr: Renderer): Json -> Result<Option<map<string, Json>>>
  {
    issue => IssueRow(issue, projectKey, versionName, repr)
  }

  /** `issues_data.append(issue_info)` for one issue, or Raised. */
  function IssueRow(issue: Json, projectKey: string, versionName: Json, repr: Renderer): Result<Option<map<string, Json>>>
  {
    var r := IssueInfo(issue, projectKey, versionName, repr);
    if r.Raised? then Raised else Ok(Some(AsDict(r.value)))
  }

  /** `issues_data`: the records of the issues before the first one whose
      record raises (the `except Exception` ends the version). */
  function IssuesForVersion(issues: seq<Json>, projectKey: string, versionName: Json, repr: Renderer): seq<map<string, Json>>
  {
    UpToRaise(issues, IssueStep(projectKey, versionName, repr))
  }

  /** The per-issue loop of `get_issues_for_version(project_key, version_name)`
      over the issues of every page. */
  method GetIssuesForVersion(projectKey: string, versionName: Json, issues: seq<Json>, repr: Renderer)
    returns (issuesData: seq<map<string, Json>>)
    ensures issuesData == IssuesForVersion(issues, projectKey, versionName, repr)
  {
    issuesData := CollectUpToRaise(issues, IssueStep(projectKey, versionName, repr));
  }

  // ---------------------------------------------------------------------
  // extract_release_data

  /** The keys `issue.update` adds. */
  const VersionMetaKeys: seq<string> := [
    "version_id", "version_status", "version_start_date", "version_release_date", "version_description"]

  const VersionMetaKeySet: set<string> := {
    "version_id", "version_status", "version_start_date", "version_release_date", "version_description"}

  /** Each key list and its set have the same members. */
  lemma {:induction false} KeySetsAgree()
    ensures forall k :: k in IssueInfoKeys <==> k in IssueInfoKeySet
    ensures forall k :: k in VersionMetaKeys <==> k in VersionMetaKeySet
  {
  }

  /** `issue.update({...})` with the version's metadata. */
  function WithVersion(issue: map<string, Json>, v: VersionInfo): (r: map<string, Json>)
    ensures forall k :: k in r <==> k in issue || k in VersionMetaKeySet
    ensures forall k :: k in issue && k !in VersionMetaKeySet ==> r[k] == issue[k]
    ensures r["version_id"] == v.versionId && r["version_status"] == JStr(v.status)
            && r["version_start_date"] == v.startDate && r["version_release_date"] == v.releaseDate
            && r["version_description"] == v.description
  {
    issue + map[
      "version_id" := v.versionId,
      "version_status" := JStr(v.status),
      "version_start_date" := v.startDate,
      "version_release_date" := v.releaseDate,
      "version_description" := v.description]
  }

  /** `column_order` of `extract_release_data`. */
  const ColumnOrder: seq<string> := [
    "project_key", "version_name", "version_status", "version_start_date",
    "version_release_date", "version_description", "issue_key", "summary",
    "issue_type", "priority", "status", "resolution", "assignee", "reporter",
    "fix_versions", "labels", "sdlc_information", "application_name",
    "story_points", "sprint", "acceptance_criteria", "feature_link",
    "notes", "description"]

  /** The records of one version's issues, each merged with the version. */
  function WithVersionAll(issues: seq<map<string, Json>>, v: VersionInfo): seq<map<string, Json>>
  {
    seq(|issues|, j requires 0 <= j < |issues| => WithVersion(issues[j], v))
  }

  /** The merged records of one version. */
  function VersionRows(v: VersionInfo, fetchIssues: (string, Json) -> seq<Json>, repr: Renderer): seq<map<string, Json>>
  {
    WithVersionAll(IssuesForVersion(fetchIssues(v.projectKey, v.versionName), v.projectKey, v.versionName, repr), v)
  }

  /** `all_issues` for a list of versions. */
  function AllIssues(versions: seq<VersionInfo>, fetchIssues: (string, Json) -> seq<Json>, repr: Renderer): seq<map<string, Json>>
  {
    if versions == [] then []
    else AllIssues(versions[..|versions| - 1], fetchIssues, repr) + VersionRows(versions[|versions| - 1], fetchIssues, repr)
  }

  /** The table `extract_release_data` returns. Every record has the keys of
      `issue_info` followed by the five version keys, so those are the
      DataFrame's columns. */
  function ReleaseData(projectKeys: string, fetchVersions: string -> Option<seq<Json>>,
                       fetchIssues: (string, Json) -> seq<Json>, startDate: string, endDate: string, repr: Renderer): Table
  {
    MergedTable(AllVersions(SplitTrim(projectKeys), fetchVersions, startDate, endDate), fetchIssues, repr)
  }

  /** The table built from a list of versions: empty without versions or
      without issues, else the merged records cut down to `column_order`. */
  function MergedTable(versions: seq<VersionInfo>, fetchIssues: (string, Json) -> seq<Json>, repr: Renderer): Table
  {
    var issues := AllIssues(versions, fetchIssues, repr);
    if versions == [] || issues == [] then Empty
    else SelectPresent(Table(IssueInfoKeys + VersionMetaKeys, issues), ColumnOrder)
  }

  /** `extract_release_data(project_keys, start_date, end_date)`: versions,
      then each version's issues merged with its metadata, then the column
      selection. The two requests are the parameters `fetchVersions` and
      `fetchIssues` (the latter returns the issues of every page). */
  method ExtractReleaseData(projectKeys: string, fetchVersions: string -> Option<seq<Json>>,
                            fetchIssues: (string, Json) -> seq<Json>, startDate: string, endDate: string, repr: Renderer)
    returns (df: Table)
    ensures df == ReleaseData(projectKeys, fetchVersions, fetchIssues, startDate, endDate, repr)
  {
    var projectList := SplitTrim(projectKeys);
    var versionsData := GetProjectVersions(projectList, fetchVersions, startDate, endDate);
    if versionsData == [] {
      return Empty;
    }
    var allIssues := MergeVersions(versionsData, fetchIssues, repr);
    if allIssues == [] {
      return Empty;
    }
    df := SelectPresent(Table(IssueInfoKeys + VersionMetaKeys, allIssues), ColumnOrder);
  }

  /** The loop over `versions_data` in `extract_release_data`. */
  method MergeVersions(versionsData: seq<VersionInfo>, fetchIssues: (string, Json) -> seq<Json>, repr: Renderer)
    returns (allIssues: seq<map<string, Json>>)
    ensures allIssues == AllIssues(versionsData, fetchIssues, repr)
  {
    allIssues := [];
    for k := 0 to |versionsData|
      invariant allIssues == AllIssues(versionsData[..k], fetchIssues, repr)
    {
      assert versionsData[..k + 1][..k] == versionsData[..k];
      var version := versionsData[k];
      var issues := GetIssuesForVersion(version.projectKey, version.versionName,
                                        fetchIssues(version.projectKey, version.versionName), repr);
      issues := AddVersionMeta(issues, version);
      allIssues := allIssues + issues;
    }
    assert versionsData[..|versionsData|] == versionsData;
  }

  /** `for issue in issues: issue.update({...})`, record by record in place. */
  method AddVersionMeta(issues: seq<map<string, Json>>, version: VersionInfo) returns (updated: seq<map<string, Json>>)
    ensures updated == WithVersionAll(issues, version)
  {
    updated := issues;
    for j := 0 to |updated|
      invariant |updated| == |issues|
      invariant forall t :: 0 <= t < j ==> updated[t] == WithVersion(issues[t], version)
      invariant forall t :: j <= t < |updated| ==> updated[t] == issues[t]
    {
      updated := updated[j := WithVersion(updated[j], version)];
    }
  }

  /** A record of `issues_data`: exactly the keys of `issue_info`, with the
      project key and version name it was fetched for. */
  ghost predicate IssueRowOf(row: map<string, Json>, projectKey: string, versionName: Json)
  {
    (forall k :: k in row <==> k in IssueInfoKeySet)
    && "project_key" in row && row["project_key"] == JStr(projectKey)
    && "version_name" in row && row["version_name"] == versionName
  }

  /** Every record of `issues_data` is one built for its project and version. */
  lemma {:induction false} IssuesForVersionRows(issues: seq<Json>, projectKey: string, versionName: Json, repr: Renderer, j: int)
    requires 0 <= j < |IssuesForVersion(issues, projectKey, versionName, repr)|
    ensures IssueRowOf(IssuesForVersion(issues, projectKey, versionName, repr)[j], projectKey, versionName)
  {
    ghost var step := IssueStep(projectKey, versionName, repr);
    var row := UpToRaise(issues, step)[j];
    UpToRaiseSound(issues, step, j);
    var i :| 0 <= i < |issues| && NoneRaise(issues[..i + 1], step) && step(issues[i]) == Ok(Some(row));
    assert IssueRow(issues[i], projectKey, versionName, repr) == Ok(Some(row));
  }

  /** A merged record: the keys of `issue_info` and the version keys, the
      version's metadata, and the version's project key and name. */
  ghost predicate MergedRow(row: map<string, Json>, v: VersionInfo)
  {
    MergedKeys(row) && MergedValues(row, v)
  }

  /** The keys of `issue_info` and the version keys, and no others. */
  ghost predicate MergedKeys(row: map<string, Json>)
  {
    forall k :: k in row <==> k in IssueInfoKeySet || k in VersionMetaKeySet
  }

  /** The version's metadata, and its project key and name. */
  predicate MergedValues(row: map<string, Json>, v: VersionInfo)
  {
    "project_key" in row && row["project_key"] == JStr(v.projectKey)
    && "version_name" in row && row["version_name"] == v.versionName
    && "version_id" in row && row["version_id"] == v.versionId
    && "version_status" in row && row["version_status"] == JStr(v.status)
    && "version_start_date" in row && row["version_start_date"] == v.startDate
    && "version_release_date" in row && row["version_release_date"] == v.releaseDate
    && "version_description" in row && row["version_description"] == v.description
  }

  /** Merging a record of the version's own issues gives a merged record. */
  lemma {:induction false} WithVersionMerged(row: map<string, Json>, v: VersionInfo)
    requires IssueRowOf(row, v.projectKey, v.versionName)
    ensures MergedRow(WithVersion(row, v), v)
  {
    var r := WithVersion(row, v);
    assert MergedKeys(r);
    assert "project_key" !in VersionMetaKeySet && "version_name" !in VersionMetaKeySet;
    assert MergedValues(r, v);
  }

  /** Every record of `all_issues` is one of the merged records of one version. */
  lemma {:induction false} AllIssuesIndex(versions: seq<VersionInfo>, fetchIssues: (string, Json) -> seq<Json>, repr: Renderer, k: int)
    requires 0 <= k < |AllIssues(versions, fetchIssues, repr)|
    ensures exists i, j :: 0 <= i < |versions| && 0 <= j < |VersionRows(versions[i], fetchIssues, repr)|
                           && AllIssues(versions, fetchIssues, repr)[k] == VersionRows(versions[i], fetchIssues, repr)[j]
  {
    var init := versions[..|versions| - 1];
    var before := AllIssues(init, fetchIssues, repr);
    var last := |versions| - 1;
    var rows := VersionRows(versions[last], fetchIssues, repr);
    var all := AllIssues(versions, fetchIssues, repr);
    assert all == before + rows;
    if k < |before| {
      AllIssuesIndex(init, fetchIssues, repr, k);
      var i, j :| 0 <= i < |init| && 0 <= j < |VersionRows(init[i], fetchIssues, repr)|
                  && before[k] == VersionRows(init[i], fetchIssues, repr)[j];
      assert versions[i] == init[i];
      assert all[k] == VersionRows(versions[i], fetchIssues, repr)[j];
    } else {
      assert all[k] == rows[k - |before|];
    }
  }

  /** Every record of `all_issues` is a merged record of one of the versions. */
  lemma {:induction false} AllIssuesFromVersions(versions: seq<VersionInfo>, fetchIssues: (string, Json) -> seq<Json>, repr: Renderer, k: int)
    requires 0 <= k < |AllIssues(versions, fetchIssues, repr)|
    ensures exists i :: 0 <= i < |versions| && MergedRow(AllIssues(versions, fetchIssues, repr)[k], versions[i])
  {
    AllIssuesIndex(versions, fetchIssues, repr, k);
    var i, j :| 0 <= i < |versions| && 0 <= j < |VersionRows(versions[i], fetchIssues, repr)|
                && AllIssues(versions, fetchIssues, repr)[k] == VersionRows(versions[i], fetchIssues, repr)[j];
    var v := versions[i];
    var issues := IssuesForVersion(fetchIssues(v.projectKey, v.versionName), v.projectKey, v.versionName, repr);
    assert VersionRows(v, fetchIssues, repr)[j] == WithVersion(issues[j], v);
    IssuesForVersionRows(fetchIssues(v.projectKey, v.versionName), v.projectKey, v.versionName, repr, j);
    WithVersionMerged(issues[j], v);
  }

  /** `column_order` lists only keys a merged record has, and leaves out
      `version_id`. */
  lemma {:induction false} ColumnOrderKeys()
    ensures forall i :: 0 <= i < |ColumnOrder| ==> ColumnOrder[i] in IssueInfoKeySet || ColumnOrder[i] in VersionMetaKeySet
    ensures "version_id" !in ColumnOrder
  {
  }

  /** Every key of `column_order` is a column of the merged table. */
  lemma {:induction false} ColumnOrderInTable()
    ensures forall i :: 0 <= i < |ColumnOrder| ==> ColumnOrder[i] in IssueInfoKeys + VersionMetaKeys
  {
    KeySetsAgree();
    ColumnOrderKeys();
  }

  /** The selection keeps `column_order` as it is. */
  lemma {:induction false} ColumnOrderPresent()
    ensures Present(ColumnOrder, IssueInfoKeys + VersionMetaKeys) == ColumnOrder
  {
    ColumnOrderInTable();
    PresentAll(ColumnOrder, IssueInfoKeys + VersionMetaKeys);
  }

  /** A merged record of a released version, cut down to `column_order`:
      every column of `column_order` and no other. */
  lemma {:induction false} ExportedRow(row: map<string, Json>, v: VersionInfo)
    requires MergedRow(row, v) && v.status == "Released"
    ensures var out := Project(row, ColumnOrder);
      (forall i :: 0 <= i < |ColumnOrder| ==> ColumnOrder[i] in out)
      && (forall c :: c in out ==> c in ColumnOrder)
      && out["version_status"] == JStr("Released")
      && out["version_release_date"] == v.releaseDate
      && out["project_key"] == JStr(v.projectKey)
  {
    ExportedKeys(row);
    var out := Project(row, ColumnOrder);
    assert "version_status" in ColumnOrder && "version_release_date" in ColumnOrder && "project_key" in ColumnOrder;
    assert out["version_status"] == row["version_status"];
  }

  /** A merged record cut down to `column_order` has every column of it. */
  lemma {:induction false} ExportedKeys(row: map<string, Json>)
    requires MergedKeys(row)
    ensures forall i :: 0 <= i < |ColumnOrder| ==> ColumnOrder[i] in Project(row, ColumnOrder)
  {
    ColumnOrderKeys();
  }

  /** One row of the exported table built from merged records: the table's
      columns are exactly `column_order` (so `version_id` is dropped), and a
      row of a Released version has exactly those columns, is Released and
      carries the version's project key and release date. */
  lemma {:induction false} SelectedRowShape(issues: seq<map<string, Json>>, v: VersionInfo, k: int)
    requires 0 <= k < |issues| && MergedRow(issues[k], v) && v.status == "Released"
    ensures var t := SelectPresent(Table(IssueInfoKeys + VersionMetaKeys, issues), ColumnOrder);
      t.columns == ColumnOrder && "version_id" !in t.columns
      && (forall i :: 0 <= i < |ColumnOrder| ==> ColumnOrder[i] in t.rows[k])
      && (forall c :: c in t.rows[k] ==> c in ColumnOrder)
      && "version_status" in t.rows[k] && t.rows[k]["version_status"] == JStr("Released")
      && "version_release_date" in t.rows[k] && t.rows[k]["version_release_date"] == v.releaseDate
      && "project_key" in t.rows[k] && t.rows[k]["project_key"] == JStr(v.projectKey)
  {
    var t := SelectPresent(Table(IssueInfoKeys + VersionMetaKeys, issues), ColumnOrder);
    ColumnOrderPresent();
    ColumnOrderKeys();
    assert t.rows[k] == Project(issues[k], ColumnOrder);
    ExportedRow(issues[k], v);
  }

  /** `extract_release_data` exports only Released versions in the window:
      a non-empty result has the columns of `column_order` and no others, and
      every row carries the project key and release date of one kept version,
      whose date parses and lies in the window. */
  lemma {:induction false} ReleaseDataShape(projectKeys: string, fetchVersions: string -> Option<seq<Json>>,
                         fetchIssues: (string, Json) -> seq<Json>, startDate: string, endDate: string, repr: Renderer,
                         k: int)
    requires var t := ReleaseData(projectKeys, fetchVersions, fetchIssues, startDate, endDate, repr);
      t != Empty && 0 <= k < |t.rows|
    ensures var t := ReleaseData(projectKeys, fetchVersions, fetchIssues, startDate, endDate, repr);
      t.columns == ColumnOrder && "version_id" !in t.columns
      && (forall i :: 0 <= i < |ColumnOrder| ==> ColumnOrder[i] in t.rows[k])
      && (forall c :: c in t.rows[k] ==> c in ColumnOrder)
      && "version_status" in t.rows[k] && t.rows[k]["version_status"] == JStr("Released")
      && exists v :: v in AllVersions(SplitTrim(projectKeys), fetchVersions, startDate, endDate)
                     && v.releaseDate.JStr? && IsSomeInWindow(v.releaseDate.s, startDate, endDate)
                     && "version_release_date" in t.rows[k] && t.rows[k]["version_release_date"] == v.releaseDate
                     && "project_key" in t.rows[k] && t.rows[k]["project_key"] == JStr(v.projectKey)
  {
    var versions := AllVersions(SplitTrim(projectKeys), fetchVersions, startDate, endDate);
    var issues := AllIssues(versions, fetchIssues, repr);
    assert versions != [] && issues != [];
    AllIssuesFromVersions(versions, fetchIssues, repr, k);
    var i :| 0 <= i < |versions| && MergedRow(issues[k], versions[i]);
    var v := versions[i];
    assert v in versions;
    AllVersionsSound(SplitTrim(projectKeys), fetchVersions, startDate, endDate);
    SelectedRowShape(issues, v, k);
  }
}
