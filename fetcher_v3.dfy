/** `JiraReleaseFetcher` of main_v3.py: custom-field flattening, sprint
    parsing over every list element with a state suffix, the release-window
    filter that drops only the version whose date does not parse, and the
    issue record. */
module FetcherV3 {
  import opened Outcome
  import opened Json
  import opened Text
  import opened Dates
  import opened SprintText

  // ---------------------------------------------------------------------
  // _get_custom_field_value

  /** A candidate id decides the value when the payload has it and it is not
      None. */
  predicate Qualifies(fields: map<string, Json>, id: string)
  {
    id in fields && fields[id] != JNull
  }

  /** The shape-dependent flattening of the chosen value: a dictionary gives
      its `value` entry as it is (there is no `name` fallback), or `str(dict)`
      when it has none; a list gives the `", "`-join of `str(item)`; anything
      else `str(value)`. */
  function FlattenCustom(v: Json, repr: Renderer): Json
  {
    match v
    case JObj(m) => if "value" in m then m["value"] else JStr(repr(v))
    case JArr(items) => JStr(Join(", ", seq(|items|, i requires 0 <= i < |items| => Str(items[i], repr))))
    case _ => JStr(Str(v, repr))
  }

  /** `_get_custom_field_value(fields, possible_field_ids)`: the first
      candidate present with a non-None value decides, flattened by shape;
      with none, `''`. */
  function CustomFieldValue(fields: map<string, Json>, candidates: seq<string>, repr: Renderer): (r: Json)
    ensures forall k :: 0 <= k < |candidates| && Qualifies(fields, candidates[k])
                        && (forall j :: 0 <= j < k ==> !Qualifies(fields, candidates[j]))
                        ==> r == FlattenCustom(fields[candidates[k]], repr)
    ensures (forall k :: 0 <= k < |candidates| ==> !Qualifies(fields, candidates[k])) ==> r == JStr("")
  {
    if candidates == [] then JStr("")
    else if Qualifies(fields, candidates[0]) then FlattenCustom(fields[candidates[0]], repr)
    else CustomFieldValue(fields, candidates[1..], repr)
  }

  /** A dictionary value is its `value` entry even when that entry is None,
      and a dictionary without `value` gives `str(dict)` even when it has a
      `name`. */
  lemma {:induction false} CustomValueDictionary(fields: map<string, Json>, id: string, m: map<string, Json>, repr: Renderer)
    requires id in fields && fields[id] == JObj(m)
    ensures "value" in m ==> CustomFieldValue(fields, [id], repr) == m["value"]
    ensures "value" !in m ==> CustomFieldValue(fields, [id], repr) == JStr(repr(JObj(m)))
  {
  }

  /** A list of strings is flattened to their `", "`-join, in order. */
  lemma {:induction false} CustomValueStringList(fields: map<string, Json>, id: string, names: seq<string>, repr: Renderer)
    requires id in fields && fields[id] == JArr(seq(|names|, i requires 0 <= i < |names| => JStr(names[i])))
    ensures CustomFieldValue(fields, [id], repr) == JStr(Join(", ", names))
  {
    var items := fields[id].items;
    assert seq(|items|, i requires 0 <= i < |items| => Str(items[i], repr)) == names;
  }

  /** Candidates that are missing or None are skipped: the value comes from
      the later candidate. */
  lemma {:induction false} CustomValueSkipsNone(fields: map<string, Json>, a: string, b: string, repr: Renderer)
    requires a !in fields || fields[a] == JNull
    requires Qualifies(fields, b)
    ensures CustomFieldValue(fields, [a, b], repr) == FlattenCustom(fields[b], repr)
  {
  }

  const SdlcInformationIds: seq<string> := ["customfield_15600"]
  const ApplicationNameIds: seq<string> := ["customfield_11700"]
  const StoryPointsIds: seq<string> := ["customfield_10106"]
  const AcceptanceCriteriaIds: seq<string> := ["customfield_10601"]
  const FeatureLinkIds: seq<string> := ["customfield_10100"]
  const NotesIds: seq<string> := ["customfield_10602"]
  const SprintFieldIds: seq<string> := ["customfield_10104"]

  // ---------------------------------------------------------------------
  // _parse_single_sprint

  /** The `" (STATE)"` suffix a terminated `state=` value other than CLOSED
      adds to a sprint string. */
  function StateSuffix(s: string): string
  {
    if !Contains(s, "state=") then ""
    else
      var state := ValueAfter(s, "state=");
      if state != "" && state != "CLOSED" then " (" + state + ")" else ""
  }

  /** The name after the first `name=`, up to the next `,` (or `]` when no
      comma follows), with its state suffix; None when that name is empty or
      unterminated. */
  function LegacyName(s: string): Option<string>
    requires Contains(s, "name=")
  {
    var name := ValueAfter(s, "name=");
    if name != "" then Some(name + StateSuffix(s)) else None
  }

  /** `_parse_single_sprint` on a string. */
  function ParseSprintString(s: string): string
  {
    var legacy := if Contains(s, "name=") then LegacyName(s) else None;
    if legacy.Some? then legacy.value
    else if !StartsWith(s, "com.atlassian") then Strip(s)
    else ""
  }

  /** `_parse_single_sprint(sprint_data)` without its debug output. */
  function ParseSingleSprint(sd: Json, repr: Renderer): string
  {
    match sd
    case JObj(m) =>
      var name := if "name" in m then m["name"] else JStr("");
      var state := if "state" in m then m["state"] else JStr("");
      var id := if "id" in m then m["id"] else JStr("");
      if Truthy(name) then
        Str(name, repr) + (if Truthy(state) && state != JStr("CLOSED") then " (" + Str(state, repr) + ")" else "")
      else if Truthy(id) then "Sprint " + Str(id, repr)
      else ""
    case JStr(s) => ParseSprintString(s)
    case _ => ""
  }

  /** A sprint dictionary: its name, with `" (state)"` exactly when the state
      is non-empty and not CLOSED; without a name, `"Sprint {id}"` for a truthy
      id (so `{"id": 5}` reads as `"Sprint 5"`); otherwise `''`. */
  lemma {:induction false} SprintDictionary(name: string, state: string, id: Json, repr: Renderer)
    ensures name != "" ==>
      ParseSingleSprint(JObj(map["name" := JStr(name), "state" := JStr(state), "id" := id]), repr)
      == name + (if state != "" && state != "CLOSED" then " (" + state + ")" else "")
    ensures Truthy(id) ==>
      ParseSingleSprint(JObj(map["state" := JStr(state), "id" := id]), repr) == "Sprint " + Str(id, repr)
    ensures ParseSingleSprint(JObj(map["state" := JStr(state)]), repr) == ""
  {
  }

  /** The state of a descriptor is read up to the comma after it. */
  lemma {:induction false} LegacyStateSuffix(head: string, id: string, name: string, state: string, rest: string)
    requires '=' !in head && '=' !in id && '=' !in name && ',' !in state
    ensures StateSuffix(LegacySprintText(head, id, name, state, rest))
            == if state != "" && state != "CLOSED" then " (" + state + ")" else ""
  {
    LegacyStateAfter(head, id, name, state, rest);
  }

  /** The name of a descriptor is read up to the comma after it. */
  lemma {:induction false} LegacyNameValue(head: string, id: string, name: string, state: string, rest: string)
    requires '=' !in head && '=' !in id && '=' !in name && ',' !in name && name != ""
    ensures Contains(LegacySprintText(head, id, name, state, rest), "name=")
    ensures var s := LegacySprintText(head, id, name, state, rest);
            LegacyName(s) == Some(name + StateSuffix(s))
  {
    LegacyNameAfter(head, id, name, state, rest);
  }

  /** Reading a legacy descriptor: the name between `name=` and the next
      comma, followed by `" (state)"` unless the state is empty or CLOSED —
      the same text the dictionary form of that sprint gives. */
  lemma {:induction false} LegacySprintParse(head: string, id: string, name: string, state: string, rest: string, repr: Renderer)
    requires '=' !in head && '=' !in id && '=' !in name
    requires ',' !in name && name != "" && ',' !in state
    ensures ParseSprintString(LegacySprintText(head, id, name, state, rest))
            == name + (if state != "" && state != "CLOSED" then " (" + state + ")" else "")
    ensures ParseSprintString(LegacySprintText(head, id, name, state, rest))
            == ParseSingleSprint(JObj(map["name" := JStr(name), "state" := JStr(state), "id" := JStr(id)]), repr)
  {
    LegacyNameValue(head, id, name, state, rest);
    LegacyStateSuffix(head, id, name, state, rest);
  }


  /** A string without an extractable name is returned stripped, unless it
      starts with `com.atlassian`. */
  lemma {:induction false} SprintPlainString(s: string, repr: Renderer)
    requires !Contains(s, "name=")
    ensures ParseSingleSprint(JStr(s), repr) == if StartsWith(s, "com.atlassian") then "" else Strip(s)
  {
  }

  /** Neither a dictionary nor a string: `''`. */
  lemma {:induction false} SprintOtherShapes(sd: Json, repr: Renderer)
    requires !sd.JObj? && !sd.JStr?
    ensures ParseSingleSprint(sd, repr) == ""
  {
  }

  // ---------------------------------------------------------------------
  // _extract_sprint_info

  /** The non-empty parses of `items`, in order. */
  function NonEmptySprintNames(items: seq<Json>, repr: Renderer): (r: seq<string>)
    ensures forall i :: 0 <= i < |r| ==> r[i] != ""
    ensures |r| <= |items|
  {
    if items == [] then []
    else
      var n := ParseSingleSprint(items[|items| - 1], repr);
      NonEmptySprintNames(items[..|items| - 1], repr) + (if n != "" then [n] else [])
  }

  /** What one sprint field's value contributes to `sprint_info`. */
  function SprintContribution(v: Json, repr: Renderer): seq<string>
  {
    match v
    case JArr(items) => NonEmptySprintNames(items, repr)
    case JObj(_) => NonEmptySprintNames([v], repr)
    case JStr(_) => NonEmptySprintNames([v], repr)
    case _ => []
  }

  function SprintNames(fields: map<string, Json>, ids: seq<string>, repr: Renderer): seq<string>
  {
    if ids == [] then []
    else
      var id := ids[|ids| - 1];
      SprintNames(fields, ids[..|ids| - 1], repr) + (if Qualifies(fields, id) then SprintContribution(fields[id], repr) else [])
  }

  /** The sprint column of main_v3.py. */
  function SprintInfo(fields: map<string, Json>, repr: Renderer): string
  {
    Join(", ", SprintNames(fields, SprintFieldIds, repr))
  }

  /** `_extract_sprint_info(fields)`: parses every list element (or the single
      dictionary or string), keeps the non-empty results and joins them. */
  method ExtractSprintInfo(fields: map<string, Json>, repr: Renderer) returns (result: string)
    ensures result == SprintInfo(fields, repr)
  {
    var sprintInfo: seq<string> := [];
    for f := 0 to |SprintFieldIds|
      invariant sprintInfo == SprintNames(fields, SprintFieldIds[..f], repr)
    {
      var id := SprintFieldIds[f];
      assert SprintFieldIds[..f + 1][..f] == SprintFieldIds[..f];
      if id in fields && fields[id] != JNull {
        var sprintData := fields[id];
        if sprintData.JArr? {
          var items := sprintData.items;
          for i := 0 to |items|
            invariant sprintInfo == SprintNames(fields, SprintFieldIds[..f], repr) + NonEmptySprintNames(items[..i], repr)
          {
            assert items[..i + 1][..i] == items[..i];
            var sprintName := ParseSingleSprint(items[i], repr);
            if sprintName != "" {
              sprintInfo := sprintInfo + [sprintName];
            }
          }
          assert items[..|items|] == items;
        } else if sprintData.JObj? || sprintData.JStr? {
          var sprintName := ParseSingleSprint(sprintData, repr);
          if sprintName != "" {
            sprintInfo := sprintInfo + [sprintName];
          }
        }
      }
    }
    assert SprintFieldIds[..|SprintFieldIds|] == SprintFieldIds;
    result := if sprintInfo != [] then Join(", ", sprintInfo) else "";
  }

  /** A missing or None sprint field gives `''`. */
  lemma {:induction false} SprintInfoAbsent(fields: map<string, Json>, repr: Renderer)
    requires !Qualifies(fields, "customfield_10104")
    ensures SprintInfo(fields, repr) == ""
  {
    assert SprintFieldIds[..0] == [];
    assert SprintNames(fields, SprintFieldIds, repr) == [];
  }

  /** Every element of a sprint list is parsed, in order: when all parse to
      non-empty names the column is their `", "`-join. */
  lemma {:induction false} NonEmptyNamesAll(items: seq<Json>, repr: Renderer)
    requires forall i :: 0 <= i < |items| ==> ParseSingleSprint(items[i], repr) != ""
    ensures |NonEmptySprintNames(items, repr)| == |items|
    ensures forall i :: 0 <= i < |items| ==> NonEmptySprintNames(items, repr)[i] == ParseSingleSprint(items[i], repr)
  {
    if items != [] {
      var init := items[..|items| - 1];
      var last := ParseSingleSprint(items[|items| - 1], repr);
      NonEmptyNamesAll(init, repr);
      var names := NonEmptySprintNames(items, repr);
      assert names == NonEmptySprintNames(init, repr) + [last];
      forall i | 0 <= i < |items| ensures names[i] == ParseSingleSprint(items[i], repr) {
        if i < |init| {
          assert items[i] == init[i];
        }
      }
    }
  }

  lemma {:induction false} SprintInfoEveryElement(fields: map<string, Json>, items: seq<Json>, repr: Renderer)
    requires "customfield_10104" in fields && fields["customfield_10104"] == JArr(items)
    requires forall i :: 0 <= i < |items| ==> ParseSingleSprint(items[i], repr) != ""
    ensures SprintInfo(fields, repr) == Join(", ", seq(|items|, i requires 0 <= i < |items| => ParseSingleSprint(items[i], repr)))
  {
    SprintNamesOfList(fields, items, repr);
    NonEmptyNamesKept(items, repr);
  }

  /** When no element parses to `''`, every parsed name is kept, in order. */
  lemma {:induction false} NonEmptyNamesKept(items: seq<Json>, repr: Renderer)
    requires forall i :: 0 <= i < |items| ==> ParseSingleSprint(items[i], repr) != ""
    ensures NonEmptySprintNames(items, repr) == seq(|items|, i requires 0 <= i < |items| => ParseSingleSprint(items[i], repr))
  {
    NonEmptyNamesAll(items, repr);
  }

  /** A list in the sprint field contributes its non-empty parsed names. */
  lemma {:induction false} SprintNamesOfList(fields: map<string, Json>, items: seq<Json>, repr: Renderer)
    requires "customfield_10104" in fields && fields["customfield_10104"] == JArr(items)
    ensures SprintNames(fields, SprintFieldIds, repr) == NonEmptySprintNames(items, repr)
  {
    assert SprintFieldIds[..0] == [];
    assert SprintContribution(JArr(items), repr) == NonEmptySprintNames(items, repr);
  }

  // ---------------------------------------------------------------------
  // _is_date_in_range and the version filter of fetch_releases

  /** `_is_date_in_range(date_str, start_date, end_date)`: False as soon as
      one of the three does not parse (the ValueError is caught). */
  function IsDateInRange(dateStr: string, startDate: string, endDate: string): (r: bool)
    ensures r ==> ParseYmd(dateStr).Some? && ParseYmd(startDate).Some? && ParseYmd(endDate).Some?
  {
    match (ParseYmd(dateStr), ParseYmd(startDate), ParseYmd(endDate))
    case (Some(d), Some(s), Some(e)) => InWindow(d, s, e)
    case _ => false
  }

  /** On ISO 8601 dates the check is the inclusive window `start <= d <= end`. */
  lemma {:induction false} IsDateInRangeIso(d: Date, s: Date, e: Date)
    requires ValidDate(d) && ValidDate(s) && ValidDate(e)
    ensures IsDateInRange(IsoFormat(d), IsoFormat(s), IsoFormat(e)) <==> DateLe(s, d) && DateLe(d, e)
  {
    ParseIsoRoundTrip(d);
    ParseIsoRoundTrip(s);
    ParseIsoRoundTrip(e);
  }

  /** One row of the Releases sheet. */
  datatype Release = Release(
    projectKey: string,
    version: Json,
    status: string,
    startDate: Json,
    releaseDate: Json,
    description: Json,
    versionId: Json)

  /** The row built for a version that passes the filter. */
  function ReleaseRow(projectKey: string, m: map<string, Json>): Release
  {
    Release(projectKey, GetOr(m, "name", JStr("")),
            if Truthy(GetOr(m, "released", JNull)) then "Released" else "Unreleased",
            GetOr(m, "startDate", JStr("")), GetOr(m, "releaseDate", JStr("")),
            GetOr(m, "description", JStr("")), GetOr(m, "id", JStr("")))
  }

  /** The filter's condition on one version, raising where Python raises: a
      version that is not a dictionary (AttributeError), and a truthy
      `releaseDate` that is not a string (`strptime` raises TypeError, which
      `except ValueError` does not catch). */
  function VersionStep(projectKey: string, v: Json, startDate: string, endDate: string): Result<Option<Release>>
  {
    if !v.JObj? then Raised
    else if !Truthy(GetOr(v.fields, "released", JBool(false))) then Ok(None)
    else
      var releaseDate := GetOr(v.fields, "releaseDate", JNull);
      if !Truthy(releaseDate) then Ok(None)
      else if !releaseDate.JStr? then Raised
      else if IsDateInRange(releaseDate.s, startDate, endDate) then Ok(Some(ReleaseRow(projectKey, v.fields)))
      else Ok(None)
  }

  /** The rows one project's versions contribute; an exception escapes
      `fetch_releases` altogether. */
  function ProjectReleases(projectKey: string, versions: seq<Json>, startDate: string, endDate: string): Result<seq<Release>>
  {
    if versions == [] then Ok([])
    else
      var before :- ProjectReleases(projectKey, versions[..|versions| - 1], startDate, endDate);
      var step :- VersionStep(projectKey, versions[|versions| - 1], startDate, endDate);
      Ok(before + (if step.Some? then [step.value] else []))
  }

  /** The rows for several projects; `fetched` gives each project's versions,
      None where the request failed (that project is skipped). */
  function AllReleases(projects: seq<string>, fetched: string -> Option<seq<Json>>, startDate: string, endDate: string): Result<seq<Release>>
  {
    if projects == [] then Ok([])
    else
      var before :- AllReleases(projects[..|projects| - 1], fetched, startDate, endDate);
      var p := projects[|projects| - 1];
      var more :- if fetched(p).Some? then ProjectReleases(p, fetched(p).value, startDate, endDate) else Ok([]);
      Ok(before + more)
  }

  lemma {:induction false} ProjectReleasesAppend(projectKey: string, versions: seq<Json>, v: Json, before: seq<Release>, startDate: string, endDate: string)
    requires ProjectReleases(projectKey, versions, startDate, endDate) == Ok(before)
    ensures ProjectReleases(projectKey, versions + [v], startDate, endDate)
         == var step := VersionStep(projectKey, v, startDate, endDate);
            if step.Raised? then Raised
            else Ok(before + (if step.value.Some? then [step.value.value] else []))
  {
    assert (versions + [v])[..|versions|] == versions;
  }

  lemma {:induction false} AllReleasesAppend(projects: seq<string>, p: string, fetched: string -> Option<seq<Json>>, before: seq<Release>, startDate: string, endDate: string)
    requires AllReleases(projects, fetched, startDate, endDate) == Ok(before)
    ensures AllReleases(projects + [p], fetched, startDate, endDate)
         == if fetched(p).None? then Ok(before)
            else
              var more := ProjectReleases(p, fetched(p).value, startDate, endDate);
              if more.Raised? then Raised else Ok(before + more.value)
  {
    assert (projects + [p])[..|projects|] == projects;
    assert before + [] == before;
  }

  /** The loop over one project's versions in `fetch_releases`. */
  method FilterVersions(projectKey: string, versions: seq<Json>, startDate: string, endDate: string)
    returns (releases: Result<seq<Release>>)
    ensures releases == ProjectReleases(projectKey, versions, startDate, endDate)
  {
    var acc: seq<Release> := [];
    for i := 0 to |versions|
      invariant ProjectReleases(projectKey, versions[..i], startDate, endDate) == Ok(acc)
    {
      assert versions[..i + 1] == versions[..i] + [versions[i]];
      ProjectReleasesAppend(projectKey, versions[..i], versions[i], acc, startDate, endDate);
      var step := VersionStep(projectKey, versions[i], startDate, endDate);
      if step.Raised? {
        ProjectRaisedStays(projectKey, versions, i + 1, startDate, endDate);
        return Raised;
      }
      ghost var old_acc := acc;
      if step.value.Some? {
        acc := acc + [step.value.value];
      }
      assert acc == old_acc + (if step.value.Some? then [step.value.value] else []);
    }
    assert versions[..|versions|] == versions;
    releases := Ok(acc);
  }

  /** The version filter of `fetch_releases(project_keys, start_date, end_date)`
      (its HTTP request is the parameter `fetched`). */
  method FetchReleases(projectKeys: string, fetched: string -> Option<seq<Json>>, startDate: string, endDate: string)
    returns (releases: Result<seq<Release>>)
    ensures releases == AllReleases(SplitTrim(projectKeys), fetched, startDate, endDate)
  {
    var projectList := SplitTrim(projectKeys);
    releases := FilterProjects(projectList, fetched, startDate, endDate);
  }

  /** The loop over the projects in `fetch_releases`. */
  method FilterProjects(projectList: seq<string>, fetched: string -> Option<seq<Json>>, startDate: string, endDate: string)
    returns (releases: Result<seq<Release>>)
    ensures releases == AllReleases(projectList, fetched, startDate, endDate)
  {
    var acc: seq<Release> := [];
    for p := 0 to |projectList|
      invariant AllReleases(projectList[..p], fetched, startDate, endDate) == Ok(acc)
    {
      assert projectList[..p + 1] == projectList[..p] + [projectList[p]];
      AllReleasesAppend(projectList[..p], projectList[p], fetched, acc, startDate, endDate);
      var projectKey := projectList[p];
      var response := fetched(projectKey);
      ghost var before := acc;
      if response.Some? {
        var more := FilterVersions(projectKey, response.value, startDate, endDate);
        if more.Raised? {
          AllRaisedFrom(projectList, p + 1, fetched, startDate, endDate);
          return Raised;
        }
        acc := acc + more.value;
      }
      assert acc == if response.None? then before else before + ProjectReleases(projectKey, response.value, startDate, endDate).value;
    }
    assert projectList[..|projectList|] == projectList;
    releases := Ok(acc);
  }

  lemma {:induction false} ProjectRaisedStays(projectKey: string, versions: seq<Json>, n: nat, startDate: string, endDate: string)
    requires n <= |versions|
    requires ProjectReleases(projectKey, versions[..n], startDate, endDate) == Raised
    ensures ProjectReleases(projectKey, versions, startDate, endDate) == Raised
    decreases |versions| - n
  {
    if n < |versions| {
      assert versions[..n + 1][..n] == versions[..n];
      ProjectRaisedStays(projectKey, versions, n + 1, startDate, endDate);
    } else {
      assert versions[..n] == versions;
    }
  }

  lemma {:induction false} AllRaisedFrom(projects: seq<string>, n: nat, fetched: string -> Option<seq<Json>>, startDate: string, endDate: string)
    requires n <= |projects|
    requires AllReleases(projects[..n], fetched, startDate, endDate) == Raised
    ensures AllReleases(projects, fetched, startDate, endDate) == Raised
    decreases |projects| - n
  {
    if n < |projects| {
      assert projects[..n + 1][..n] == projects[..n];
      AllRaisedFrom(projects, n + 1, fetched, startDate, endDate);
    } else {
      assert projects[..n] == projects;
    }
  }

  /** The filter's condition, as the source states it, for a version the step
      does not raise on. */
  predicate Kept(v: map<string, Json>, startDate: string, endDate: string)
  {
    var rd := GetOr(v, "releaseDate", JNull);
    Truthy(GetOr(v, "released", JBool(false))) && Truthy(rd) && rd.JStr? && IsDateInRange(rd.s, startDate, endDate)
  }

  /** Every emitted row is of the project, Released, and has a release date
      that parses and lies in the window; so a version with no release date
      is never kept, whatever the window. */
  lemma {:induction false} ProjectReleasesSound(projectKey: string, versions: seq<Json>, startDate: string, endDate: string)
    requires ProjectReleases(projectKey, versions, startDate, endDate).Ok?
    ensures var rows := ProjectReleases(projectKey, versions, startDate, endDate).value;
      forall r :: r in rows ==>
        r.projectKey == projectKey && r.status == "Released" && r.releaseDate.JStr?
        && IsDateInRange(r.releaseDate.s, startDate, endDate)
  {
    if versions != [] {
      ProjectReleasesSound(projectKey, versions[..|versions| - 1], startDate, endDate);
    }
  }

  /** For versions that are dictionaries with a string (or falsy) release
      date, the result is the kept versions' rows, in input order. */
  lemma {:induction false} ProjectReleasesFilter(projectKey: string, versions: seq<Json>, startDate: string, endDate: string)
    requires forall i :: 0 <= i < |versions| ==> versions[i].JObj?
    requires forall i :: 0 <= i < |versions| ==>
      var rd := GetOr(versions[i].fields, "releaseDate", JNull); !Truthy(rd) || rd.JStr?
    ensures ProjectReleases(projectKey, versions, startDate, endDate)
         == Ok(KeptRows(projectKey, versions, startDate, endDate))
  {
    if versions != [] {
      ProjectReleasesFilter(projectKey, versions[..|versions| - 1], startDate, endDate);
    }
  }

  /** The rows of the kept versions, in order. */
  function KeptRows(projectKey: string, versions: seq<Json>, startDate: string, endDate: string): seq<Release>
    requires forall i :: 0 <= i < |versions| ==> versions[i].JObj?
  {
    if versions == [] then []
    else
      var v := versions[|versions| - 1].fields;
      KeptRows(projectKey, versions[..|versions| - 1], startDate, endDate)
      + (if Kept(v, startDate, endDate) then [ReleaseRow(projectKey, v)] else [])
  }

  // ---------------------------------------------------------------------
  // _extract_issue_data

  /** `', '.join([v.get('name', '') for v in fields.get('fixVersions', [])])`. */
  function FixVersionNames(fields: Json): Result<string>
  {
    var fv :- Get(fields, "fixVersions", JArr([]));
    var items :- Elements(fv);
    var names :- GetEach(items, "name", JStr(""));
    var strs :- AllStrings(names);
    Ok(Join(", ", strs))
  }

  /** `', '.join(fields.get('labels', []))`. */
  function LabelsText(fields: Json): Result<string>
  {
    var labels :- Get(fields, "labels", JArr([]));
    JoinJson(", ", labels)
  }

  /** One row of the Issues sheet: the release context, the standard fields
      and the custom fields (`issue_data` after `update(custom_fields)`; the
      two key sets are disjoint). */
  datatype IssueRecord = IssueRecord(
    projectKey: string,
    releaseVersion: Json,
    releaseDate: Json,
    priority: Json,
    issueType: Json,
    issueKey: Json,
    summary: Json,
    assignee: Json,
    reporter: Json,
    status: Json,
    resolution: Json,
    fixVersion: string,
    labels: string,
    description: Json,
    sdlcInformation: Json,
    applicationName: Json,
    storyPoints: Json,
    sprint: string,
    acceptanceCriteria: Json,
    featureLink: Json,
    notes: Json)

  /** `_extract_issue_data(issue, release)`. It raises when the issue or its
      `fields` is not a dictionary, and where a `.get` or a join meets a value
      of the wrong type. */
  function ExtractIssueData(issue: Json, release: Release, repr: Renderer): (r: Result<IssueRecord>)
    ensures r.Ok? ==> issue.JObj? && GetOr(issue.fields, "fields", EmptyObj).JObj?
    ensures r.Ok? ==> r.value.projectKey == release.projectKey
                      && r.value.releaseVersion == release.version
                      && r.value.releaseDate == release.releaseDate
    ensures r.Ok? ==> r.value.issueKey == GetOr(issue.fields, "key", JStr(""))
  {
    var fields :- Get(issue, "fields", EmptyObj);
    if !fields.JObj? then Raised
    else
    var priority :- NullSafeGet(fields, "priority", "name");
    var issueType :- NullSafeGet(fields, "issuetype", "name");
    var key := GetOr(issue.fields, "key", JStr(""));
    var summary := GetOr(fields.fields, "summary", JStr(""));
    var assignee :- NullSafeGet(fields, "assignee", "displayName");
    var reporter :- NullSafeGet(fields, "reporter", "displayName");
    var status :- NullSafeGet(fields, "status", "name");
    var resolution :- NullSafeGet(fields, "resolution", "name");
    var fixVersion :- FixVersionNames(fields);
    var labels :- LabelsText(fields);
    var description := GetOr(fields.fields, "description", JStr(""));
    var f := fields.fields;
    Ok(IssueRecord(
      release.projectKey, release.version, release.releaseDate,
      priority, issueType, key, summary, assignee, reporter, status, resolution,
      fixVersion, labels, description,
      CustomFieldValue(f, SdlcInformationIds, repr),
      CustomFieldValue(f, ApplicationNameIds, repr),
      CustomFieldValue(f, StoryPointsIds, repr),
      SprintInfo(f, repr),
      CustomFieldValue(f, AcceptanceCriteriaIds, repr),
      CustomFieldValue(f, FeatureLinkIds, repr),
      CustomFieldValue(f, NotesIds, repr)))
  }

  /** A standard field that is absent, None or otherwise falsy, or a dictionary. */
  predicate NullOrObject(fields: map<string, Json>, key: string)
  {
    var v := GetOr(fields, key, JNull); !Truthy(v) || v.JObj?
  }

  /** The issue shapes the tracker sends: a dictionary whose `fields` is a
      dictionary, standard fields null or objects, fix versions a list of
      objects with string names, labels a list of strings. */
  predicate WellShapedIssue(issue: Json)
  {
    issue.JObj? &&
    var fv := GetOr(issue.fields, "fields", EmptyObj);
    fv.JObj? &&
    var f := fv.fields;
    NullOrObject(f, "priority") && NullOrObject(f, "issuetype") && NullOrObject(f, "assignee")
    && NullOrObject(f, "reporter") && NullOrObject(f, "status") && NullOrObject(f, "resolution")
    && WellShapedVersions(GetOr(f, "fixVersions", JArr([])))
    && WellShapedLabels(GetOr(f, "labels", JArr([])))
  }

  predicate WellShapedVersions(versions: Json)
  {
    versions.JArr? && forall i :: 0 <= i < |versions.items| ==>
      versions.items[i].JObj? && GetOr(versions.items[i].fields, "name", JStr("")).JStr?
  }

  predicate WellShapedLabels(labels: Json)
  {
    labels.JArr? && forall i :: 0 <= i < |labels.items| ==> labels.items[i].JStr?
  }

  /** The names of well-shaped fix versions, in order. */
  function VersionNames(versions: Json): seq<string>
    requires WellShapedVersions(versions)
  {
    seq(|versions.items|, i requires 0 <= i < |versions.items| => GetOr(versions.items[i].fields, "name", JStr("")).s)
  }

  /** The fix-version names of well-shaped versions are joined, in order. */
  lemma {:induction false} FixVersionNamesOk(fields: Json)
    requires fields.JObj? && WellShapedVersions(GetOr(fields.fields, "fixVersions", JArr([])))
    ensures FixVersionNames(fields) == Ok(Join(", ", VersionNames(GetOr(fields.fields, "fixVersions", JArr([])))))
  {
    var items := GetOr(fields.fields, "fixVersions", JArr([])).items;
    var names := GetEach(items, "name", JStr(""));
    assert names.Ok?;
    var strs := AllStrings(names.value);
    assert strs.Ok?;
    assert strs.value == seq(|items|, i requires 0 <= i < |items| => GetOr(items[i].fields, "name", JStr("")).s);
  }

  /** Null-safe projections: a well-shaped issue never raises, a missing or
      null priority, issuetype, assignee, reporter, status or resolution
      yields `''`, and the fix versions and labels are their names and
      strings joined with `', '`, in order. */
  lemma {:induction false} ExtractIssueDataNullSafe(issue: Json, release: Release, repr: Renderer)
    requires WellShapedIssue(issue)
    ensures ExtractIssueData(issue, release, repr).Ok?
    ensures var r := ExtractIssueData(issue, release, repr).value;
            var f := GetOr(issue.fields, "fields", EmptyObj).fields;
            (!Truthy(GetOr(f, "priority", JNull)) ==> r.priority == JStr(""))
            && (!Truthy(GetOr(f, "issuetype", JNull)) ==> r.issueType == JStr(""))
            && (!Truthy(GetOr(f, "assignee", JNull)) ==> r.assignee == JStr(""))
            && (!Truthy(GetOr(f, "reporter", JNull)) ==> r.reporter == JStr(""))
            && (!Truthy(GetOr(f, "status", JNull)) ==> r.status == JStr(""))
            && (!Truthy(GetOr(f, "resolution", JNull)) ==> r.resolution == JStr(""))
    ensures var r := ExtractIssueData(issue, release, repr).value;
            var f := GetOr(issue.fields, "fields", EmptyObj).fields;
            r.fixVersion == Join(", ", VersionNames(GetOr(f, "fixVersions", JArr([]))))
            && r.labels == Join(", ", StringsOf(GetOr(f, "labels", JArr([])).items))
  {
    var fields := GetOr(issue.fields, "fields", EmptyObj);
    FixVersionNamesOk(fields);
    assert LabelsText(fields).Ok?;
  }
}
