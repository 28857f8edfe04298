/** The custom-field analyzer (`JiraFieldAnalyzer` in custom_field_analyzer.py):
    the purpose classifier, the sample formatter, the field-list partition,
    the per-field aggregation over a project's issues and the report with
    one row per field sorted by usage. Requests are parameters: the decoded
    response, or None when the request failed. */
module FieldAnalyzer {
  import opened Outcome
  import opened Json
  import opened Text

  // ---------------------------------------------------------------------
  // _guess_field_purpose

  /** Python `any(k in s for k in keywords)`. */
  predicate AnyIn(keywords: seq<string>, s: string)
  {
    keywords != [] && (Contains(s, keywords[0]) || AnyIn(keywords[1..], s))
  }

  lemma {:induction false} AnyInIff(keywords: seq<string>, s: string)
    ensures AnyIn(keywords, s) <==> exists i :: 0 <= i < |keywords| && Contains(s, keywords[i])
  {
    if keywords != [] {
      AnyInIff(keywords[1..], s);
      if exists i :: 0 <= i < |keywords| && Contains(s, keywords[i]) {
        var i :| 0 <= i < |keywords| && Contains(s, keywords[i]);
        if i > 0 {
          assert keywords[1..][i - 1] == keywords[i];
        }
      }
    }
  }

  /** Python `isinstance(v, str) and ('http' in str(v) or 'www' in str(v))`. */
  predicate LooksLikeLink(value: Json)
  {
    value.JStr? && (Contains(value.s, "http") || Contains(value.s, "www"))
  }

  /** The name rules as a table, in the order they are tried. */
  const PurposeRules: seq<(seq<string>, string)> := [
    (["story point", "point", "estimate"], "Story_Points"),
    (["sprint"], "Sprint"),
    (["sdlc", "lifecycle", "environment"], "SDLC_Information"),
    (["app", "application"], "Application_Name"),
    (["acceptance", "criteria", "ac"], "Acceptance_Criteria"),
    (["feature", "link", "url"], "Feature_Link"),
    (["note", "comment", "remark"], "Notes")]

  /** `_guess_field_purpose(field_name, field_value)`: the `if`/`elif`
      chain over the name rules, in order, on the lower-cased name; then the
      link test on the value; then `'Unknown'`. */
  function GuessFieldPurpose(fieldName: string, value: Json): string
  {
    match FirstRule(PurposeRules, Lower(fieldName), 0)
    case Some(p) => p
    case None => if LooksLikeLink(value) then "Possible_Link" else "Unknown"
  }

  /** The purpose of the first rule from index `k` on one of whose keywords
      occurs in `name`. */
  function FirstRule(rules: seq<(seq<string>, string)>, name: string, k: nat): (r: Option<string>)
    requires k <= |rules|
    ensures r.Some? <==> exists i :: k <= i < |rules| && AnyIn(rules[i].0, name)
    ensures r.Some? ==> exists i :: k <= i < |rules| && r.value == rules[i].1
    decreases |rules| - k
  {
    if k == |rules| then None
    else if AnyIn(rules[k].0, name) then Some(rules[k].1)
    else FirstRule(rules, name, k + 1)
  }

  /** The first rule that matches decides: rule `i` wins exactly when it
      matches and no earlier rule does. */
  lemma {:induction false} FirstRuleWins(rules: seq<(seq<string>, string)>, name: string, k: nat, i: int)
    requires k <= i < |rules| && AnyIn(rules[i].0, name)
    requires forall j :: k <= j < i ==> !AnyIn(rules[j].0, name)
    ensures FirstRule(rules, name, k) == Some(rules[i].1)
    decreases i - k
  {
    if k < i {
      FirstRuleWins(rules, name, k + 1, i);
    }
  }

  /** The name rules' purposes. */
  lemma {:induction false} RulePurposes(i: int)
    requires 0 <= i < |PurposeRules|
    ensures PurposeRules[i].1 != "Possible_Link" && PurposeRules[i].1 != "Unknown"
  {
  }

  /** `'Possible_Link'` only when no name rule matched and the value is a
      string mentioning `http` or `www`; `'Unknown'` when nothing matched. */
  lemma {:induction false} PossibleLinkIff(fieldName: string, value: Json)
    ensures GuessFieldPurpose(fieldName, value) == "Possible_Link"
            <==> FirstRule(PurposeRules, Lower(fieldName), 0).None? && LooksLikeLink(value)
    ensures GuessFieldPurpose(fieldName, value) == "Unknown"
            <==> FirstRule(PurposeRules, Lower(fieldName), 0).None? && !LooksLikeLink(value)
  {
    var r := FirstRule(PurposeRules, Lower(fieldName), 0);
    if r.Some? {
      var i :| 0 <= i < |PurposeRules| && r.value == PurposeRules[i].1;
      RulePurposes(i);
    }
  }

  /** The purpose is that of the first name rule with a keyword in the
      lower-cased name, whatever the value. */
  lemma {:induction false} PurposeByFirstRule(fieldName: string, value: Json, i: int)
    requires 0 <= i < |PurposeRules| && AnyIn(PurposeRules[i].0, Lower(fieldName))
    requires forall j :: 0 <= j < i ==> !AnyIn(PurposeRules[j].0, Lower(fieldName))
    ensures GuessFieldPurpose(fieldName, value) == PurposeRules[i].1
  {
    FirstRuleWins(PurposeRules, Lower(fieldName), 0, i);
  }

  // ---------------------------------------------------------------------
  // _format_sample_value

  /** `item.get('name', str(item)[:30])` for the first two items of a list. */
  function ItemNames(items: seq<Json>, repr: Renderer): (r: Result<seq<Json>>)
    ensures r.Ok? <==> forall i :: 0 <= i < |items| ==> items[i].JObj?
    ensures r.Ok? ==> |r.value| == |items|
                      && forall i :: 0 <= i < |items| ==>
                           r.value[i] == GetOr(items[i].fields, "name", JStr(Take(Str(items[i], repr), 30)))
  {
    if items == [] then Ok([])
    else
      var head :- Get(items[0], "name", JStr(Take(Str(items[0], repr), 30)));
      var rest :- ItemNames(items[1..], repr);
      Ok([head] + rest)
  }

  /** `_format_sample_value(field_value)`: a short description of a value.
      It raises only on a list whose first item is a dictionary with a name
      and whose second item is not a dictionary (`.get` on it). */
  function FormatSampleValue(v: Json, repr: Renderer): (r: Result<string>)
    ensures r.Raised? <==> v.JArr? && |v.items| >= 2 && v.items[0].JObj?
                           && "name" in v.items[0].fields && !v.items[1].JObj?
  {
    match v
    case JObj(f) =>
      if "name" in f then Ok("Dict with name: " + Str(f["name"], repr))
      else if "value" in f then Ok("Dict with value: " + Str(f["value"], repr))
      else Ok("Dict: " + Take(repr(v), 100) + "...")
    case JArr(items) =>
      if items == [] then Ok("Empty list")
      else if items[0].JObj? && "name" in items[0].fields then
        var names :- ItemNames(items[..if |items| < 2 then |items| else 2], repr);
        Ok("List of dicts with names: " + repr(JArr(names)) + "...")
      else Ok("List: " + Take(repr(v), 100) + "...")
    case _ =>
      var s := Str(v, repr);
      Ok(Take(s, 100) + (if |s| > 100 then "..." else ""))
  }

  /** A dictionary is described by its `name` in preference to its `value`,
      and by its text cut to 100 characters when it has neither. */
  lemma {:induction false} FormatDict(f: map<string, Json>, repr: Renderer)
    ensures "name" in f ==> FormatSampleValue(JObj(f), repr) == Ok("Dict with name: " + Str(f["name"], repr))
    ensures "name" !in f && "value" in f ==>
              FormatSampleValue(JObj(f), repr) == Ok("Dict with value: " + Str(f["value"], repr))
    ensures "name" !in f && "value" !in f ==>
              FormatSampleValue(JObj(f), repr) == Ok("Dict: " + Take(repr(JObj(f)), 100) + "...")
  {
  }

  /** An empty list is `'Empty list'`; a list led by a named dictionary is
      described by the names of (at most) its first two items, each item
      falling back to the first 30 characters of its text. */
  lemma {:induction false} FormatList(items: seq<Json>, repr: Renderer)
    ensures items == [] ==> FormatSampleValue(JArr(items), repr) == Ok("Empty list")
    ensures items != [] && items[0].JObj? && "name" in items[0].fields
            && (|items| >= 2 ==> items[1].JObj?) ==>
              var n := if |items| < 2 then |items| else 2;
              exists names: seq<Json> ::
                && |names| == n
                && (forall i :: 0 <= i < n ==>
                      names[i] == GetOr(items[i].fields, "name", JStr(Take(Str(items[i], repr), 30))))
                && FormatSampleValue(JArr(items), repr)
                   == Ok("List of dicts with names: " + repr(JArr(names)) + "...")
  {
    if items != [] && items[0].JObj? && "name" in items[0].fields && (|items| >= 2 ==> items[1].JObj?) {
      var n := if |items| < 2 then |items| else 2;
      var r := ItemNames(items[..n], repr);
      assert forall i :: 0 <= i < n ==> items[..n][i] == items[i];
      assert r.Ok?;
    }
  }

  /** A scalar whose text has at most 100 characters comes back unchanged;
      a longer one is cut to its first 100 characters followed by `...`. */
  lemma {:induction false} FormatScalar(v: Json, repr: Renderer)
    requires !v.JObj? && !v.JArr?
    ensures |Str(v, repr)| <= 100 ==> FormatSampleValue(v, repr) == Ok(Str(v, repr))
    ensures |Str(v, repr)| > 100 ==> FormatSampleValue(v, repr) == Ok(Str(v, repr)[..100] + "...")
  {
    var s := Str(v, repr);
    if |s| <= 100 {
      assert Take(s, 100) + "" == s;
    }
  }

  // ---------------------------------------------------------------------
  // get_all_field_mappings

  /** What the loop reads from one entry of the field list. */
  datatype FieldInfo = FieldInfo(name: Json, id: string, fieldType: Json)

  /** An entry of `custom_fields` (its `Is_Custom` is always True). */
  datatype CustomField = CustomField(fieldId: string, fieldName: Json, fieldType: Json)

  /** A value Python can use as a dictionary key: not a list or a dictionary. */
  predicate Hashable(j: Json)
  {
    !j.JArr? && !j.JObj?
  }

  /** Lines 38-44 for one entry: `id` defaults to `''`, `name` to `''` and the
      schema's `type` to `'unknown'`. It raises when the entry or its schema
      is not a dictionary, when the name cannot be a key, or when the id is
      not a string (`startswith`). */
  function FieldEntry(field: Json): (r: Result<FieldInfo>)
    ensures r.Ok? <==> field.JObj? && GetOr(field.fields, "schema", EmptyObj).JObj?
                       && Hashable(GetOr(field.fields, "name", JStr("")))
                       && GetOr(field.fields, "id", JStr("")).JStr?
    ensures r.Ok? ==> r.value.name == GetOr(field.fields, "name", JStr(""))
                      && JStr(r.value.id) == GetOr(field.fields, "id", JStr(""))
                      && r.value.fieldType == GetOr(GetOr(field.fields, "schema", EmptyObj).fields, "type", JStr("unknown"))
  {
    if !field.JObj? then Raised
    else
    var id := GetOr(field.fields, "id", JStr(""));
    var name := GetOr(field.fields, "name", JStr(""));
    var t :- Get(GetOr(field.fields, "schema", EmptyObj), "type", JStr("unknown"));
    if !Hashable(name) || !id.JStr? then Raised else Ok(FieldInfo(name, id.s, t))
  }

  /** Every entry of the list read, or Raised when one of them raises. */
  function FieldEntries(fields: seq<Json>): (r: Result<seq<FieldInfo>>)
    ensures r.Ok? <==> forall i :: 0 <= i < |fields| ==> FieldEntry(fields[i]).Ok?
    ensures r.Ok? ==> |r.value| == |fields|
                      && forall i :: 0 <= i < |fields| ==> r.value[i] == FieldEntry(fields[i]).value
  {
    if fields == [] then Ok([])
    else
      var head :- FieldEntry(fields[0]);
      var rest :- FieldEntries(fields[1..]);
      Ok([head] + rest)
  }

  predicate IsCustom(f: FieldInfo)
  {
    StartsWith(f.id, "customfield_")
  }

  function AsCustom(f: FieldInfo): CustomField
  {
    CustomField(f.id, f.name, f.fieldType)
  }

  /** `field_mappings` after the loop: `field_mappings[field_name] = field_id`
      for each entry in turn. */
  function NameMap(infos: seq<FieldInfo>): map<Json, string>
  {
    if infos == [] then map[]
    else NameMap(infos[..|infos| - 1])[infos[|infos| - 1].name := infos[|infos| - 1].id]
  }

  /** `custom_fields` after the loop: the `customfield_` entries appended in
      turn. */
  function Customs(infos: seq<FieldInfo>): seq<CustomField>
  {
    if infos == [] then []
    else
      var last := infos[|infos| - 1];
      Customs(infos[..|infos| - 1]) + (if IsCustom(last) then [AsCustom(last)] else [])
  }

  /** `get_all_field_mappings()` on the decoded response, None when the request
      failed: `({}, [])` then. Any other error propagates. */
  function FieldMappings(response: Option<Json>): Result<(map<Json, string>, seq<CustomField>)>
  {
    match response
    case None => Ok((map[], []))
    case Some(j) =>
      var fields :- Elements(j);
      var infos :- FieldEntries(fields);
      Ok((NameMap(infos), Customs(infos)))
  }

  /** The loop of lines 37-50. */
  method GetAllFieldMappings(response: Option<Json>) returns (r: Result<(map<Json, string>, seq<CustomField>)>)
    ensures r == FieldMappings(response)
  {
    if response.None? {
      return Ok((map[], []));
    }
    var elements := Elements(response.value);
    if elements.Raised? {
      return Raised;
    }
    var fields := elements.value;
    var mappings: map<Json, string> := map[];
    var custom: seq<CustomField> := [];
    ghost var infos: seq<FieldInfo> := [];
    var i := 0;
    while i < |fields|
      invariant 0 <= i <= |fields| && |infos| == i
      invariant forall k :: 0 <= k < i ==> FieldEntry(fields[k]).Ok? && infos[k] == FieldEntry(fields[k]).value
      invariant mappings == NameMap(infos) && custom == Customs(infos)
    {
      var e := FieldEntry(fields[i]);
      if e.Raised? {
        return Raised;
      }
      var f := e.value;
      mappings := mappings[f.name := f.id];
      if StartsWith(f.id, "customfield_") {
        custom := custom + [CustomField(f.id, f.name, f.fieldType)];
      }
      assert (infos + [f])[..i] == infos;
      infos := infos + [f];
      i := i + 1;
    }
    assert FieldEntries(fields).value == infos;
    r := Ok((mappings, custom));
  }

  /** A name is a key of `field_mappings` exactly when some entry has it. */
  lemma {:induction false} NameMapKeys(infos: seq<FieldInfo>, k: Json)
    ensures k in NameMap(infos) <==> exists i :: 0 <= i < |infos| && infos[i].name == k
  {
    if infos != [] {
      var init := infos[..|infos| - 1];
      NameMapKeys(init, k);
      if exists i :: 0 <= i < |init| && init[i].name == k {
        var i :| 0 <= i < |init| && init[i].name == k;
        assert infos[i] == init[i];
      }
      if exists i :: 0 <= i < |infos| && infos[i].name == k {
        var i :| 0 <= i < |infos| && infos[i].name == k;
        if i < |init| {
          assert init[i] == infos[i];
        }
      }
    }
  }

  /** A later entry with the same name overwrites an earlier one: a name maps
      to the id of the last entry that has it. */
  lemma {:induction false} LastNameWins(infos: seq<FieldInfo>, i: int)
    requires 0 <= i < |infos|
    requires forall j :: i < j < |infos| ==> infos[j].name != infos[i].name
    ensures infos[i].name in NameMap(infos) && NameMap(infos)[infos[i].name] == infos[i].id
  {
    if i < |infos| - 1 {
      var init := infos[..|infos| - 1];
      assert init[i] == infos[i];
      forall j | i < j < |init| ensures init[j].name != init[i].name {
        assert init[j] == infos[j];
      }
      LastNameWins(init, i);
    }
  }

  /** `custom_fields` keeps input order: it distributes over concatenation. */
  lemma {:induction false} CustomsAppend(a: seq<FieldInfo>, b: seq<FieldInfo>)
    ensures Customs(a + b) == Customs(a) + Customs(b)
    decreases |b|
  {
    if b == [] {
      assert a + b == a;
    } else {
      var b0 := b[..|b| - 1];
      assert (a + b)[..|a + b| - 1] == a + b0;
      CustomsAppend(a, b0);
    }
  }

  /** `custom_fields` holds exactly the `customfield_` entries. */
  lemma {:induction false} CustomsMembers(infos: seq<FieldInfo>, c: CustomField)
    ensures c in Customs(infos) <==> exists i :: 0 <= i < |infos| && IsCustom(infos[i]) && c == AsCustom(infos[i])
  {
    if infos != [] {
      var init := infos[..|infos| - 1];
      CustomsMembers(init, c);
      if exists i :: 0 <= i < |init| && IsCustom(init[i]) && c == AsCustom(init[i]) {
        var i :| 0 <= i < |init| && IsCustom(init[i]) && c == AsCustom(init[i]);
        assert infos[i] == init[i];
      }
      if exists i :: 0 <= i < |infos| && IsCustom(infos[i]) && c == AsCustom(infos[i]) {
        var i :| 0 <= i < |infos| && IsCustom(infos[i]) && c == AsCustom(infos[i]);
        if i < |init| {
          assert init[i] == infos[i];
        }
      }
    }
  }

  // ---------------------------------------------------------------------
  // analyze_issue_custom_fields

  /** A `customfield_` entry with a non-None value in an issue's fields. */
  datatype Occurrence = Occurrence(issueKey: Json, fieldId: string, value: Json)

  /** An entry of `Sample_Values`. */
  datatype Sample = Sample(issue: Json, value: string, typeName: string)

  /** The record `all_custom_fields` keeps per field id. */
  datatype FieldData = FieldData(fieldId: string, fieldName: string, sampleValues: seq<Sample>,
                                 valueTypes: set<string>, issuesWithData: seq<Json>,
                                 potentialPurpose: string)

  /** The order in which `fields.items()` visits a dictionary's entries (its
      insertion order, which a `map` does not record). */
  type ItemsOrder = map<string, Json> -> seq<(string, Json)>

  /** The purpose guess and the sample formatter the aggregation applies:
      `GuessFieldPurpose` and `FormatSampleValue` in `Analysis`. */
  type Guesser = (string, Json) -> string
  type Formatter = Json -> Result<string>

  /** `type(v).__name__`. */
  function TypeName(v: Json): string
  {
    match v
    case JNull => "NoneType"
    case JBool(_) => "bool"
    case JNum(_) => "int"
    case JStr(_) => "str"
    case JArr(_) => "list"
    case JObj(_) => "dict"
  }

  /** The test of line 108. */
  predicate Counts(id: string, v: Json)
  {
    StartsWith(id, "customfield_") && v != JNull
  }

  /** The entries of `items` that pass the test of line 108, in order. */
  function Counted(issueKey: Json, items: seq<(string, Json)>): (r: seq<Occurrence>)
    ensures forall i :: 0 <= i < |r| ==> Counts(r[i].fieldId, r[i].value) && r[i].issueKey == issueKey
  {
    if items == [] then []
    else
      var last := items[|items| - 1];
      Counted(issueKey, items[..|items| - 1])
      + (if Counts(last.0, last.1) then [Occurrence(issueKey, last.0, last.1)] else [])
  }

  /** Lines 99-102 and 107-108 for one issue: its occurrences, in the order of
      its fields. It raises when the issue, its `fields` or their `issuetype`
      is not a dictionary, or when the summary is truthy and not a string
      (`[:50] + '...'`). */
  function IssueOccurrences(issue: Json, itemsOf: ItemsOrder): (r: Result<seq<Occurrence>>)
    ensures r.Ok? <==> issue.JObj? && GetOr(issue.fields, "fields", EmptyObj).JObj?
                       && GetOr(GetOr(issue.fields, "fields", EmptyObj).fields, "issuetype", EmptyObj).JObj?
                       && var summary := GetOr(GetOr(issue.fields, "fields", EmptyObj).fields, "summary", JNull);
                          !Truthy(summary) || summary.JStr?
  {
    if !issue.JObj? then Raised
    else
      var key := GetOr(issue.fields, "key", JStr(""));
      var fields := GetOr(issue.fields, "fields", EmptyObj);
      if !fields.JObj? then Raised
      else
        var issueType := GetOr(fields.fields, "issuetype", EmptyObj);
        var summary := GetOr(fields.fields, "summary", JNull);
        if !issueType.JObj? || (Truthy(summary) && !summary.JStr?) then Raised
        else Ok(Counted(key, itemsOf(fields.fields)))
  }

  /** The position of the record for `id`, or -1. */
  function IndexOfField(all: seq<FieldData>, id: string): (r: int)
    ensures -1 <= r < |all|
    ensures r == -1 <==> forall j :: 0 <= j < |all| ==> all[j].fieldId != id
    ensures r >= 0 ==> all[r].fieldId == id
  {
    if all == [] then -1
    else if all[|all| - 1].fieldId == id then |all| - 1
    else IndexOfField(all[..|all| - 1], id)
  }

  /** Lines 122-133 on one record: the type is added, the issue key appended,
      and a sample appended while there are fewer than three. */
  function Record(d: FieldData, o: Occurrence, format: Formatter): Result<FieldData>
  {
    var t := TypeName(o.value);
    var d' := d.(valueTypes := d.valueTypes + {t}, issuesWithData := d.issuesWithData + [o.issueKey]);
    if |d.sampleValues| < 3 then
      var sv :- format(o.value);
      Ok(d'.(sampleValues := d.sampleValues + [Sample(o.issueKey, sv, t)]))
    else Ok(d')
  }

  /** Lines 109-133 for one occurrence. The name comes from `names`, which
      raises unless it is a dictionary; a field met for the first time gets a
      fresh record whose purpose is guessed from this name and value, which
      raises unless the name is a string (`lower`). */
  function Absorb(all: seq<FieldData>, o: Occurrence, names: Json, guess: Guesser, format: Formatter): Result<seq<FieldData>>
  {
    var name :- Get(names, o.fieldId, JStr("Unknown Field Name"));
    var k := IndexOfField(all, o.fieldId);
    if k < 0 then
      if !name.JStr? then Raised
      else
        var d :- Record(FieldData(o.fieldId, name.s, [], {}, [], guess(name.s, o.value)), o, format);
        Ok(all + [d])
    else
      var d :- Record(all[k], o, format);
      Ok(all[k := d])
  }

  /** The records after absorbing `occs` in turn into `all`. */
  function AbsorbAll(all: seq<FieldData>, occs: seq<Occurrence>, names: Json, guess: Guesser, format: Formatter): Result<seq<FieldData>>
  {
    if occs == [] then Ok(all)
    else
      var prev :- AbsorbAll(all, occs[..|occs| - 1], names, guess, format);
      Absorb(prev, occs[|occs| - 1], names, guess, format)
  }

  /** The records after the loop of lines 98-133 over `issues`. */
  function AggregateIssues(issues: seq<Json>, names: Json, itemsOf: ItemsOrder, guess: Guesser, format: Formatter): Result<seq<FieldData>>
  {
    if issues == [] then Ok([])
    else
      var prev :- AggregateIssues(issues[..|issues| - 1], names, itemsOf, guess, format);
      var occs :- IssueOccurrences(issues[|issues| - 1], itemsOf);
      AbsorbAll(prev, occs, names, guess, format)
  }

  /** `_format_sample_value` with `repr` for the text of lists and dictionaries. */
  function SampleFormatter(repr: Renderer): Formatter
  {
    v => FormatSampleValue(v, repr)
  }

  /** `analyze_issue_custom_fields(project_key)` on the decoded search
      response, None when the request failed: `[]` then, and `[]` when there
      are no issues; otherwise the records in the order their fields were
      first met. A response that is not a dictionary raises. */
  function Analysis(response: Option<Json>, itemsOf: ItemsOrder, repr: Renderer): Result<seq<FieldData>>
  {
    match response
    case None => Ok([])
    case Some(sr) =>
      var issues :- Get(sr, "issues", JArr([]));
      var names := GetOr(sr.fields, "names", EmptyObj);
      if !Truthy(issues) then Ok([])
      else
        var xs :- Elements(issues);
        AggregateIssues(xs, names, itemsOf, GuessFieldPurpose, SampleFormatter(repr))
  }

  /** The body of the inner loop for one occurrence. */
  method AddOccurrence(all: seq<FieldData>, o: Occurrence, names: Json, guess: Guesser, format: Formatter)
    returns (r: Result<seq<FieldData>>)
    ensures r == Absorb(all, o, names, guess, format)
  {
    if !names.JObj? {
      return Raised;
    }
    var fieldName := GetOr(names.fields, o.fieldId, JStr("Unknown Field Name"));
    var k := IndexOfField(all, o.fieldId);
    var d: FieldData;
    if k < 0 {
      if !fieldName.JStr? {
        return Raised;
      }
      d := FieldData(o.fieldId, fieldName.s, [], {}, [], guess(fieldName.s, o.value));
    } else {
      d := all[k];
    }
    var valueType := TypeName(o.value);
    var sampleCount := |d.sampleValues|;
    d := d.(valueTypes := d.valueTypes + {valueType});
    d := d.(issuesWithData := d.issuesWithData + [o.issueKey]);
    if sampleCount < 3 {
      var sample := format(o.value);
      if sample.Raised? {
        return Raised;
      }
      d := d.(sampleValues := d.sampleValues + [Sample(o.issueKey, sample.value, valueType)]);
    }
    r := if k < 0 then Ok(all + [d]) else Ok(all[k := d]);
  }

  /** One pass of the outer loop: the issue's fields visited in order. */
  method AnalyzeIssue(all: seq<FieldData>, issue: Json, names: Json, itemsOf: ItemsOrder,
                      guess: Guesser, format: Formatter)
    returns (r: Result<seq<FieldData>>)
    ensures r == (var occs :- IssueOccurrences(issue, itemsOf); AbsorbAll(all, occs, names, guess, format))
  {
    if !issue.JObj? {
      return Raised;
    }
    var issueKey := GetOr(issue.fields, "key", JStr(""));
    var fields := GetOr(issue.fields, "fields", EmptyObj);
    if !fields.JObj? {
      return Raised;
    }
    var issueType := GetOr(fields.fields, "issuetype", EmptyObj);
    var summary := GetOr(fields.fields, "summary", JNull);
    if !issueType.JObj? || (Truthy(summary) && !summary.JStr?) {
      return Raised;
    }
    r := AbsorbFields(all, issueKey, itemsOf(fields.fields), names, guess, format);
  }

  /** The inner loop of lines 107-133 over an issue's `fields.items()`. */
  method AbsorbFields(all: seq<FieldData>, issueKey: Json, items: seq<(string, Json)>, names: Json,
                      guess: Guesser, format: Formatter)
    returns (r: Result<seq<FieldData>>)
    ensures r == AbsorbAll(all, Counted(issueKey, items), names, guess, format)
  {
    var acc := all;
    var j := 0;
    while j < |items|
      invariant 0 <= j <= |items|
      invariant AbsorbAll(all, Counted(issueKey, items[..j]), names, guess, format) == Ok(acc)
    {
      var (fieldId, fieldValue) := items[j];
      AbsorbAllStep(all, issueKey, items, j, names, guess, format);
      if StartsWith(fieldId, "customfield_") && fieldValue != JNull {
        var next := AddOccurrence(acc, Occurrence(issueKey, fieldId, fieldValue), names, guess, format);
        if next.Raised? {
          AbsorbFieldsRaised(all, issueKey, items, j + 1, names, guess, format);
          return Raised;
        }
        acc := next.value;
      }
      j := j + 1;
    }
    assert items[..j] == items;
    r := Ok(acc);
  }

  /** The loop of lines 98-133. */
  method AnalyzeIssueCustomFields(response: Option<Json>, itemsOf: ItemsOrder, repr: Renderer)
    returns (r: Result<seq<FieldData>>)
    ensures r == Analysis(response, itemsOf, repr)
  {
    if response.None? {
      return Ok([]);
    }
    var searchResults := response.value;
    if !searchResults.JObj? {
      return Raised;
    }
    var issues := GetOr(searchResults.fields, "issues", JArr([]));
    var names := GetOr(searchResults.fields, "names", EmptyObj);
    if !Truthy(issues) {
      return Ok([]);
    }
    var elements := Elements(issues);
    if elements.Raised? {
      return Raised;
    }
    var xs := elements.value;
    var guess: Guesser := GuessFieldPurpose;
    var format := SampleFormatter(repr);
    var all: seq<FieldData> := [];
    var i := 0;
    while i < |xs|
      invariant 0 <= i <= |xs|
      invariant AggregateIssues(xs[..i], names, itemsOf, guess, format) == Ok(all)
    {
      AggregateStep(xs, i, names, itemsOf, guess, format);
      var next := AnalyzeIssue(all, xs[i], names, itemsOf, guess, format);
      if next.Raised? {
        AggregateRaisedStays(xs, names, itemsOf, guess, format, i + 1);
        return Raised;
      }
      all := next.value;
      i := i + 1;
    }
    assert xs[..i] == xs;
    r := Ok(all);
  }

  /** One step of the inner loop. */
  lemma {:induction false} AbsorbAllStep(all: seq<FieldData>, issueKey: Json, items: seq<(string, Json)>, j: int,
                      names: Json, guess: Guesser, format: Formatter)
    requires 0 <= j < |items|
    ensures AbsorbAll(all, Counted(issueKey, items[..j + 1]), names, guess, format)
            == if Counts(items[j].0, items[j].1) then
                 (var prev :- AbsorbAll(all, Counted(issueKey, items[..j]), names, guess, format);
                  Absorb(prev, Occurrence(issueKey, items[j].0, items[j].1), names, guess, format))
               else AbsorbAll(all, Counted(issueKey, items[..j]), names, guess, format)
  {
    assert items[..j + 1][..j] == items[..j];
    var c := Counted(issueKey, items[..j]);
    if Counts(items[j].0, items[j].1) {
      var o := Occurrence(issueKey, items[j].0, items[j].1);
      assert Counted(issueKey, items[..j + 1]) == c + [o];
      assert (c + [o])[..|c|] == c;
    } else {
      assert Counted(issueKey, items[..j + 1]) == c + [];
      assert c + [] == c;
    }
  }

  /** Once the inner loop has raised, it stays raised. */
  lemma {:induction false} AbsorbFieldsRaised(all: seq<FieldData>, issueKey: Json, items: seq<(string, Json)>, n: int,
                           names: Json, guess: Guesser, format: Formatter)
    requires 0 <= n <= |items| && AbsorbAll(all, Counted(issueKey, items[..n]), names, guess, format).Raised?
    ensures AbsorbAll(all, Counted(issueKey, items), names, guess, format).Raised?
  {
    CountedAppend(issueKey, items[..n], items[n..]);
    assert items[..n] + items[n..] == items;
    AbsorbAllAppend(all, Counted(issueKey, items[..n]), Counted(issueKey, items[n..]), names, guess, format);
  }

  /** One step of the outer loop. */
  lemma {:induction false} AggregateStep(issues: seq<Json>, i: int, names: Json, itemsOf: ItemsOrder, guess: Guesser, format: Formatter)
    requires 0 <= i < |issues|
    ensures AggregateIssues(issues[..i + 1], names, itemsOf, guess, format)
            == (var prev :- AggregateIssues(issues[..i], names, itemsOf, guess, format);
                var occs :- IssueOccurrences(issues[i], itemsOf);
                AbsorbAll(prev, occs, names, guess, format))
  {
    assert issues[..i + 1][..i] == issues[..i];
  }

  /** `Counted` distributes over concatenation. */
  lemma {:induction false} CountedAppend(issueKey: Json, a: seq<(string, Json)>, b: seq<(string, Json)>)
    ensures Counted(issueKey, a + b) == Counted(issueKey, a) + Counted(issueKey, b)
    decreases |b|
  {
    if b == [] {
      assert a + b == a;
    } else {
      var b0 := b[..|b| - 1];
      assert (a + b)[..|a + b| - 1] == a + b0;
      CountedAppend(issueKey, a, b0);
    }
  }

  /** Absorbing `a + b` is absorbing `a`, then `b`. */
  lemma {:induction false} AbsorbAllAppend(all: seq<FieldData>, a: seq<Occurrence>, b: seq<Occurrence>,
                                           names: Json, guess: Guesser, format: Formatter)
    ensures AbsorbAll(all, a + b, names, guess, format)
            == (var mid :- AbsorbAll(all, a, names, guess, format); AbsorbAll(mid, b, names, guess, format))
    decreases |b|
  {
    if b == [] {
      assert a + b == a;
    } else {
      var b0 := b[..|b| - 1];
      assert (a + b)[..|a + b| - 1] == a + b0;
      AbsorbAllAppend(all, a, b0, names, guess, format);
    }
  }

  /** Once the outer loop has raised, it stays raised. */
  lemma {:induction false} AggregateRaisedStays(issues: seq<Json>, names: Json, itemsOf: ItemsOrder,
                                                guess: Guesser, format: Formatter, n: int)
    requires 0 <= n <= |issues| && AggregateIssues(issues[..n], names, itemsOf, guess, format).Raised?
    ensures AggregateIssues(issues, names, itemsOf, guess, format).Raised?
    decreases |issues|
  {
    if n < |issues| {
      var init := issues[..|issues| - 1];
      assert init[..n] == issues[..n];
      AggregateRaisedStays(init, names, itemsOf, guess, format, n);
    } else {
      assert issues[..n] == issues;
    }
  }

  // ---------------------------------------------------------------------
  // What the records say about the occurrences

  /** Every occurrence in the issues, issue by issue, or Raised when one
      issue's fields cannot be read. */
  function AllOccurrences(issues: seq<Json>, itemsOf: ItemsOrder): (r: Result<seq<Occurrence>>)
    ensures r.Ok? ==> forall i :: 0 <= i < |r.value| ==> Counts(r.value[i].fieldId, r.value[i].value)
  {
    if issues == [] then Ok([])
    else
      var prev :- AllOccurrences(issues[..|issues| - 1], itemsOf);
      var occs :- IssueOccurrences(issues[|issues| - 1], itemsOf);
      Ok(prev + occs)
  }

  /** The occurrences of field `id`, in order. */
  function Matching(occs: seq<Occurrence>, id: string): (r: seq<Occurrence>)
    ensures forall i :: 0 <= i < |r| ==> r[i].fieldId == id
  {
    if occs == [] then []
    else
      var last := occs[|occs| - 1];
      Matching(occs[..|occs| - 1], id) + (if last.fieldId == id then [last] else [])
  }

  /** The field ids in the order they are first met. */
  function FirstIds(occs: seq<Occurrence>): seq<string>
  {
    if occs == [] then []
    else
      var prev := FirstIds(occs[..|occs| - 1]);
      var id := occs[|occs| - 1].fieldId;
      if id in prev then prev else prev + [id]
  }

  /** The issue keys of the occurrences, in order. */
  function KeysOf(m: seq<Occurrence>): seq<Json>
  {
    if m == [] then [] else KeysOf(m[..|m| - 1]) + [m[|m| - 1].issueKey]
  }

  /** The type names of the occurrences' values. */
  function TypesOf(m: seq<Occurrence>): set<string>
  {
    if m == [] then {} else TypesOf(m[..|m| - 1]) + {TypeName(m[|m| - 1].value)}
  }

  function Min3(n: nat): nat
  {
    if n < 3 then n else 3
  }

  /** `s` is the sample line 128-133 make of occurrence `o`. */
  predicate SampleOf(s: Sample, o: Occurrence, format: Formatter)
  {
    s.issue == o.issueKey && format(o.value) == Ok(s.value) && s.typeName == TypeName(o.value)
  }

  /** Record `d` summarises the occurrences `m` of its field: the name it was
      given in `names` and the purpose guessed at the first occurrence, one
      issue key per occurrence, the set of the values' types, and samples of
      the first three occurrences. */
  predicate Summarises(d: FieldData, m: seq<Occurrence>, names: Json, guess: Guesser, format: Formatter)
  {
    && m != []
    && names.JObj? && GetOr(names.fields, d.fieldId, JStr("Unknown Field Name")) == JStr(d.fieldName)
    && d.potentialPurpose == guess(d.fieldName, m[0].value)
    && d.issuesWithData == KeysOf(m)
    && d.valueTypes == TypesOf(m)
    && |d.sampleValues| == Min3(|m|)
    && forall i :: 0 <= i < |d.sampleValues| ==> SampleOf(d.sampleValues[i], m[i], format)
  }

  /** The records are one per field id met in `occs`, in first-met order,
      each related by `sum` to that field's occurrences. */
  predicate DescribedBy(all: seq<FieldData>, occs: seq<Occurrence>, sum: (FieldData, seq<Occurrence>) -> bool)
  {
    && |all| == |FirstIds(occs)|
    && forall j :: 0 <= j < |all| ==>
         all[j].fieldId == FirstIds(occs)[j] && sum(all[j], Matching(occs, all[j].fieldId))
  }

  function Summariser(names: Json, guess: Guesser, format: Formatter): (FieldData, seq<Occurrence>) -> bool
  {
    (d, m) => Summarises(d, m, names, guess, format)
  }

  /** The records are one per field id met in `occs`, in first-met order,
      each summarising that field's occurrences. */
  predicate Describes(all: seq<FieldData>, occs: seq<Occurrence>, names: Json, guess: Guesser, format: Formatter)
  {
    DescribedBy(all, occs, Summariser(names, guess, format))
  }

  lemma {:induction false} KeysOfIndex(m: seq<Occurrence>)
    ensures |KeysOf(m)| == |m| && forall i :: 0 <= i < |m| ==> KeysOf(m)[i] == m[i].issueKey
  {
    if m != [] {
      KeysOfIndex(m[..|m| - 1]);
    }
  }

  lemma {:induction false} TypesOfMembers(m: seq<Occurrence>, t: string)
    ensures t in TypesOf(m) <==> exists i :: 0 <= i < |m| && TypeName(m[i].value) == t
  {
    if m != [] {
      var init := m[..|m| - 1];
      TypesOfMembers(init, t);
      if exists i :: 0 <= i < |init| && TypeName(init[i].value) == t {
        var i :| 0 <= i < |init| && TypeName(init[i].value) == t;
        assert m[i] == init[i];
      }
      if exists i :: 0 <= i < |m| && TypeName(m[i].value) == t {
        var i :| 0 <= i < |m| && TypeName(m[i].value) == t;
        if i < |init| {
          assert init[i] == m[i];
        }
      }
    }
  }

  /** An issue's occurrences are exactly its `customfield_` entries with a
      non-None value. */
  lemma {:induction false} CountedMembers(issueKey: Json, items: seq<(string, Json)>, id: string, v: Json)
    ensures Occurrence(issueKey, id, v) in Counted(issueKey, items)
            <==> Counts(id, v) && exists i :: 0 <= i < |items| && items[i] == (id, v)
  {
    if items != [] {
      var init := items[..|items| - 1];
      CountedMembers(issueKey, init, id, v);
      if exists i :: 0 <= i < |init| && init[i] == (id, v) {
        var i :| 0 <= i < |init| && init[i] == (id, v);
        assert items[i] == init[i];
      }
      if exists i :: 0 <= i < |items| && items[i] == (id, v) {
        var i :| 0 <= i < |items| && items[i] == (id, v);
        if i < |init| {
          assert init[i] == items[i];
        }
      }
    }
  }

  lemma {:induction false} MatchingSnoc(occs: seq<Occurrence>, o: Occurrence, id: string)
    ensures o.fieldId == id ==> Matching(occs + [o], id) == Matching(occs, id) + [o]
    ensures o.fieldId != id ==> Matching(occs + [o], id) == Matching(occs, id)
  {
    assert (occs + [o])[..|occs|] == occs;
    assert Matching(occs, id) + [] == Matching(occs, id);
  }

  lemma {:induction false} FirstIdsSnoc(occs: seq<Occurrence>, o: Occurrence)
    ensures FirstIds(occs + [o]) == if o.fieldId in FirstIds(occs) then FirstIds(occs) else FirstIds(occs) + [o.fieldId]
  {
    assert (occs + [o])[..|occs|] == occs;
  }

  /** A field id not yet met has no occurrences. */
  lemma {:induction false} MatchingAbsent(occs: seq<Occurrence>, id: string)
    requires id !in FirstIds(occs)
    ensures Matching(occs, id) == []
  {
    if occs != [] {
      MatchingAbsent(occs[..|occs| - 1], id);
    }
  }

  /** The first-met ids have no repeats. */
  lemma {:induction false} FirstIdsDistinct(occs: seq<Occurrence>)
    ensures forall i, j :: 0 <= i < j < |FirstIds(occs)| ==> FirstIds(occs)[i] != FirstIds(occs)[j]
  {
    if occs != [] {
      FirstIdsDistinct(occs[..|occs| - 1]);
    }
  }

  /** An id is among the first-met ids exactly when some occurrence has it. */
  lemma {:induction false} FirstIdsMembers(occs: seq<Occurrence>, id: string)
    ensures id in FirstIds(occs) <==> exists i :: 0 <= i < |occs| && occs[i].fieldId == id
  {
    if occs != [] {
      var init := occs[..|occs| - 1];
      FirstIdsMembers(init, id);
      if exists i :: 0 <= i < |init| && init[i].fieldId == id {
        var i :| 0 <= i < |init| && init[i].fieldId == id;
        assert occs[i] == init[i];
      }
      if exists i :: 0 <= i < |occs| && occs[i].fieldId == id {
        var i :| 0 <= i < |occs| && occs[i].fieldId == id;
        if i < |init| {
          assert init[i] == occs[i];
        }
      }
    }
  }

  /** A further occurrence of a field keeps its record a summary. */
  lemma {:induction false} RecordSummarises(d: FieldData, m: seq<Occurrence>, o: Occurrence, names: Json, guess: Guesser, format: Formatter)
    requires Summarises(d, m, names, guess, format) && o.fieldId == d.fieldId && Record(d, o, format).Ok?
    ensures Summarises(Record(d, o, format).value, m + [o], names, guess, format)
  {
    var d' := Record(d, o, format).value;
    var m' := m + [o];
    assert m'[..|m|] == m;
    forall i | 0 <= i < |d'.sampleValues| ensures SampleOf(d'.sampleValues[i], m'[i], format) {
      if i < |d.sampleValues| {
        assert d'.sampleValues[i] == d.sampleValues[i] && m'[i] == m[i];
      }
    }
  }

  /** The record made at a field's first occurrence summarises it. */
  lemma {:induction false} RecordFirst(o: Occurrence, name: string, names: Json, guess: Guesser, format: Formatter)
    requires names.JObj? && GetOr(names.fields, o.fieldId, JStr("Unknown Field Name")) == JStr(name)
    requires Record(FieldData(o.fieldId, name, [], {}, [], guess(name, o.value)), o, format).Ok?
    ensures Summarises(Record(FieldData(o.fieldId, name, [], {}, [], guess(name, o.value)), o, format).value,
                       [o], names, guess, format)
  {
    assert [o][..0] == [];
  }

  /** A new field's record, appended, keeps the records a description. */
  lemma {:induction false} DescribesNew(all: seq<FieldData>, occs: seq<Occurrence>, o: Occurrence, d: FieldData,
                     sum: (FieldData, seq<Occurrence>) -> bool)
    requires DescribedBy(all, occs, sum)
    requires forall j :: 0 <= j < |all| ==> all[j].fieldId != o.fieldId
    requires d.fieldId == o.fieldId && sum(d, [o])
    ensures DescribedBy(all + [d], occs + [o], sum)
  {
    var ids := FirstIds(occs);
    assert o.fieldId !in ids by {
      assert forall j :: 0 <= j < |ids| ==> ids[j] == all[j].fieldId;
    }
    FirstIdsSnoc(occs, o);
    MatchingAbsent(occs, o.fieldId);
    MatchingSnoc(occs, o, o.fieldId);
    assert Matching(occs + [o], o.fieldId) == [o];
    var all' := all + [d];
    forall j | 0 <= j < |all'|
      ensures all'[j].fieldId == FirstIds(occs + [o])[j]
      ensures sum(all'[j], Matching(occs + [o], all'[j].fieldId))
    {
      if j < |all| {
        assert all'[j] == all[j];
        MatchingSnoc(occs, o, all[j].fieldId);
      } else {
        assert all'[j] == d;
      }
    }
  }

  /** An existing field's record, updated, keeps the records a description. */
  lemma {:induction false} DescribesUpdate(all: seq<FieldData>, occs: seq<Occurrence>, o: Occurrence, k: int, d: FieldData,
                        sum: (FieldData, seq<Occurrence>) -> bool)
    requires DescribedBy(all, occs, sum)
    requires 0 <= k < |all| && all[k].fieldId == o.fieldId && d.fieldId == o.fieldId
    requires sum(d, Matching(occs, o.fieldId) + [o])
    ensures DescribedBy(all[k := d], occs + [o], sum)
  {
    var ids := FirstIds(occs);
    FirstIdsSnoc(occs, o);
    FirstIdsDistinct(occs);
    assert ids[k] == o.fieldId;
    assert FirstIds(occs + [o]) == ids;
    MatchingSnoc(occs, o, o.fieldId);
    var all' := all[k := d];
    forall j | 0 <= j < |all'|
      ensures all'[j].fieldId == FirstIds(occs + [o])[j]
      ensures sum(all'[j], Matching(occs + [o], all'[j].fieldId))
    {
      if j != k {
        assert all'[j] == all[j] && ids[j] != ids[k];
        MatchingSnoc(occs, o, all[j].fieldId);
      } else {
        assert all'[j] == d;
      }
    }
  }

  /** Absorbing an occurrence keeps the records a description. */
  lemma {:induction false} AbsorbDescribes(all: seq<FieldData>, occs: seq<Occurrence>, o: Occurrence, names: Json,
                        guess: Guesser, format: Formatter)
    requires Describes(all, occs, names, guess, format) && Absorb(all, o, names, guess, format).Ok?
    ensures Describes(Absorb(all, o, names, guess, format).value, occs + [o], names, guess, format)
  {
    var k := IndexOfField(all, o.fieldId);
    var name := GetOr(names.fields, o.fieldId, JStr("Unknown Field Name"));
    if k < 0 {
      var created := FieldData(o.fieldId, name.s, [], {}, [], guess(name.s, o.value));
      RecordFirst(o, name.s, names, guess, format);
      DescribesNew(all, occs, o, Record(created, o, format).value, Summariser(names, guess, format));
    } else {
      RecordSummarises(all[k], Matching(occs, o.fieldId), o, names, guess, format);
      DescribesUpdate(all, occs, o, k, Record(all[k], o, format).value, Summariser(names, guess, format));
    }
  }

  lemma {:induction false} AbsorbAllLast(all: seq<FieldData>, occs: seq<Occurrence>, names: Json, guess: Guesser, format: Formatter)
    requires occs != [] && AbsorbAll(all, occs, names, guess, format).Ok?
    ensures AbsorbAll(all, occs[..|occs| - 1], names, guess, format).Ok?
    ensures AbsorbAll(all, occs, names, guess, format)
            == Absorb(AbsorbAll(all, occs[..|occs| - 1], names, guess, format).value, occs[|occs| - 1], names, guess, format)
  {
  }

  /** Absorbing occurrences one by one, from no records, yields a description. */
  lemma {:induction false} AbsorbAllDescribes(occs: seq<Occurrence>, names: Json, guess: Guesser, format: Formatter)
    requires AbsorbAll([], occs, names, guess, format).Ok?
    ensures Describes(AbsorbAll([], occs, names, guess, format).value, occs, names, guess, format)
  {
    if occs != [] {
      var init := occs[..|occs| - 1];
      var last := occs[|occs| - 1];
      AbsorbAllLast([], occs, names, guess, format);
      AbsorbAllDescribes(init, names, guess, format);
      AbsorbDescribes(AbsorbAll([], init, names, guess, format).value, init, last, names, guess, format);
      assert init + [last] == occs;
    }
  }

  /** The outer loop absorbs every issue's occurrences in turn: the same as
      absorbing all the occurrences at once. */
  lemma {:induction false} AggregateFlat(issues: seq<Json>, names: Json, itemsOf: ItemsOrder, guess: Guesser, format: Formatter)
    ensures AggregateIssues(issues, names, itemsOf, guess, format)
            == (var occs :- AllOccurrences(issues, itemsOf); AbsorbAll([], occs, names, guess, format))
  {
    if issues != [] {
      var init := issues[..|issues| - 1];
      AggregateFlat(init, names, itemsOf, guess, format);
      var a := AllOccurrences(init, itemsOf);
      var b := IssueOccurrences(issues[|issues| - 1], itemsOf);
      if a.Ok? && b.Ok? {
        AbsorbAllAppend([], a.value, b.value, names, guess, format);
      }
    }
  }

  /** The aggregation's result, when it has one: one record per field met,
      in first-met order and with distinct ids, each summarising its field's
      occurrences across the issues. */
  lemma {:induction false} AggregateDescribes(issues: seq<Json>, names: Json, itemsOf: ItemsOrder, guess: Guesser, format: Formatter)
    requires AggregateIssues(issues, names, itemsOf, guess, format).Ok?
    ensures AllOccurrences(issues, itemsOf).Ok?
    ensures Describes(AggregateIssues(issues, names, itemsOf, guess, format).value, AllOccurrences(issues, itemsOf).value,
                      names, guess, format)
  {
    AggregateFlat(issues, names, itemsOf, guess, format);
    var occs := AllOccurrences(issues, itemsOf).value;
    AbsorbAllDescribes(occs, names, guess, format);
  }

  // ---------------------------------------------------------------------
  // generate_field_report

  /** A row of the field report (lines 231-239). `Value_Types` is the
      `', '`-join of a set in its iteration order; the row keeps the set. */
  datatype ReportRow = ReportRow(fieldId: string, fieldName: string, guessedPurpose: string,
                                 valueTypes: set<string>, sampleIssueKeys: string,
                                 sampleValues: string, usageCount: nat)

  /** `f"{sv['Issue']}: {sv['Value']}"`. */
  function SampleText(sv: Sample, repr: Renderer): string
  {
    Str(sv.issue, repr) + ": " + sv.value
  }

  function SampleTexts(samples: seq<Sample>, repr: Renderer): (r: seq<string>)
    ensures |r| == |samples| && forall i :: 0 <= i < |samples| ==> r[i] == SampleText(samples[i], repr)
  {
    seq(|samples|, i requires 0 <= i < |samples| => SampleText(samples[i], repr))
  }

  /** The row of one field: the usage count is the number of issue keys, of
      which the first three are joined; that join raises unless they are all
      strings. */
  function MakeRow(d: FieldData, repr: Renderer): (r: Result<ReportRow>)
    ensures r.Ok? <==> forall i :: 0 <= i < Min3(|d.issuesWithData|) ==> d.issuesWithData[i].JStr?
    ensures r.Ok? ==> && r.value.fieldId == d.fieldId && r.value.fieldName == d.fieldName
                      && r.value.guessedPurpose == d.potentialPurpose && r.value.valueTypes == d.valueTypes
                      && r.value.usageCount == |d.issuesWithData|
                      && r.value.sampleValues == Join("; ", SampleTexts(d.sampleValues, repr))
                      && exists keys: seq<string> ::
                           && |keys| == Min3(|d.issuesWithData|)
                           && (forall i :: 0 <= i < |keys| ==> d.issuesWithData[i] == JStr(keys[i]))
                           && r.value.sampleIssueKeys == Join(", ", keys)
  {
    var first := d.issuesWithData[..Min3(|d.issuesWithData|)];
    assert forall i :: 0 <= i < |first| ==> first[i] == d.issuesWithData[i];
    var keys :- AllStrings(first);
    Ok(ReportRow(d.fieldId, d.fieldName, d.potentialPurpose, d.valueTypes, Join(", ", keys),
                 Join("; ", SampleTexts(d.sampleValues, repr)), |d.issuesWithData|))
  }

  /** The rows of `ds`, or Raised when one of them raises. */
  function Rows(ds: seq<FieldData>, rowOf: RowMaker): (r: Result<seq<ReportRow>>)
    ensures r.Ok? <==> forall i :: 0 <= i < |ds| ==> rowOf(ds[i]).Ok?
    ensures r.Ok? ==> |r.value| == |ds| && forall i :: 0 <= i < |ds| ==> r.value[i] == rowOf(ds[i]).value
  {
    if ds == [] then Ok([])
    else
      var head :- rowOf(ds[0]);
      var rest :- Rows(ds[1..], rowOf);
      Ok([head] + rest)
  }

  type RowMaker = FieldData -> Result<ReportRow>

  /** `MakeRow` with `repr` for the text of lists and dictionaries. */
  function RowsOf(repr: Renderer): RowMaker
  {
    d => MakeRow(d, repr)
  }

  /** The records the loop of lines 226-240 keeps: the first one of each
      field id, in order. */
  function FirstPerField(all: seq<FieldData>): seq<FieldData>
  {
    if all == [] then []
    else
      var prev := FirstPerField(all[..|all| - 1]);
      var last := all[|all| - 1];
      if IndexOfField(prev, last.fieldId) >= 0 then prev else prev + [last]
  }

  /** The loop of lines 226-240, with its `processed_fields` set; `rowOf`
      builds a row (`RowsOf(repr)`). */
  method CombineFieldData(all: seq<FieldData>, rowOf: RowMaker) returns (r: Result<seq<ReportRow>>)
    ensures r == Rows(FirstPerField(all), rowOf)
  {
    var fieldReport: seq<ReportRow> := [];
    var processed: set<string> := {};
    ghost var kept: seq<FieldData> := [];
    var i := 0;
    while i < |all|
      invariant 0 <= i <= |all|
      invariant kept == FirstPerField(all[..i])
      invariant forall id :: id in processed <==> IndexOfField(kept, id) >= 0
      invariant Rows(kept, rowOf) == Ok(fieldReport)
    {
      var fieldData := all[i];
      FirstPerFieldStep(all, i);
      if fieldData.fieldId !in processed {
        processed := processed + {fieldData.fieldId};
        var row := rowOf(fieldData);
        if row.Raised? {
          CombineRaised(all, i, rowOf);
          return Raised;
        }
        RowsSnoc(kept, fieldData, rowOf);
        kept := kept + [fieldData];
        fieldReport := fieldReport + [row.value];
      }
      i := i + 1;
    }
    assert all[..i] == all;
    r := Ok(fieldReport);
  }

  /** A kept record whose row raises makes the whole combination raise. */
  lemma {:induction false} CombineRaised(all: seq<FieldData>, i: int, rowOf: RowMaker)
    requires 0 <= i < |all| && IndexOfField(FirstPerField(all[..i]), all[i].fieldId) < 0
    requires rowOf(all[i]).Raised?
    ensures Rows(FirstPerField(all), rowOf).Raised?
  {
    FirstPerFieldKeeps(all, i);
  }

  lemma {:induction false} RowsSnoc(ds: seq<FieldData>, d: FieldData, rowOf: RowMaker)
    ensures Rows(ds + [d], rowOf) == (var rows :- Rows(ds, rowOf); var row :- rowOf(d); Ok(rows + [row]))
  {
    if ds != [] {
      assert (ds + [d])[1..] == ds[1..] + [d];
      RowsSnoc(ds[1..], d, rowOf);
      if Rows(ds + [d], rowOf).Ok? {
        var head := rowOf(ds[0]).value;
        var rest := Rows(ds[1..], rowOf).value;
        var row := rowOf(d).value;
        assert [head] + (rest + [row]) == ([head] + rest) + [row];
      }
    } else {
      assert ds + [d] == [d] && [d][1..] == [];
      if rowOf(d).Ok? {
        assert [] + [rowOf(d).value] == [rowOf(d).value] + [] == [rowOf(d).value];
        assert Rows([d][1..], rowOf) == Ok([]);
      }
    }
  }

  lemma {:induction false} FirstPerFieldStep(all: seq<FieldData>, i: int)
    requires 0 <= i < |all|
    ensures FirstPerField(all[..i + 1])
            == if IndexOfField(FirstPerField(all[..i]), all[i].fieldId) >= 0 then FirstPerField(all[..i])
               else FirstPerField(all[..i]) + [all[i]]
  {
    assert all[..i + 1][..i] == all[..i];
  }

  /** What the loop keeps from a prefix is a prefix of what it keeps. */
  lemma {:induction false} FirstPerFieldPrefix(all: seq<FieldData>, n: int)
    requires 0 <= n <= |all|
    ensures |FirstPerField(all[..n])| <= |FirstPerField(all)|
    ensures FirstPerField(all[..n]) == FirstPerField(all)[..|FirstPerField(all[..n])|]
    decreases |all|
  {
    if n == |all| {
      assert all[..n] == all;
    } else {
      var init := all[..|all| - 1];
      assert init[..n] == all[..n];
      FirstPerFieldPrefix(init, n);
    }
  }

  /** A record whose id the loop has not yet seen is kept, after the ones
      kept before it. */
  lemma {:induction false} FirstPerFieldKeeps(all: seq<FieldData>, i: int)
    requires 0 <= i < |all| && IndexOfField(FirstPerField(all[..i]), all[i].fieldId) < 0
    ensures |FirstPerField(all[..i])| < |FirstPerField(all)|
    ensures FirstPerField(all)[|FirstPerField(all[..i])|] == all[i]
  {
    var kept := FirstPerField(all[..i]);
    FirstPerFieldStep(all, i);
    FirstPerFieldPrefix(all, i + 1);
    assert FirstPerField(all[..i + 1]) == kept + [all[i]];
    assert (kept + [all[i]])[|kept|] == all[i];
  }

  /** No field id is kept twice. */
  lemma {:induction false} FirstPerFieldDistinct(all: seq<FieldData>)
    ensures forall i, j :: 0 <= i < j < |FirstPerField(all)| ==> FirstPerField(all)[i].fieldId != FirstPerField(all)[j].fieldId
  {
    if all != [] {
      FirstPerFieldDistinct(all[..|all| - 1]);
    }
  }

  /** Every field id of the input is kept. */
  lemma {:induction false} FirstPerFieldComplete(all: seq<FieldData>, i: int)
    requires 0 <= i < |all|
    ensures IndexOfField(FirstPerField(all), all[i].fieldId) >= 0
  {
    var init := all[..|all| - 1];
    var prev := FirstPerField(init);
    if i < |init| {
      assert init[i] == all[i];
      FirstPerFieldComplete(init, i);
      var k := IndexOfField(prev, all[i].fieldId);
      assert FirstPerField(all)[k] == prev[k];
    } else if IndexOfField(prev, all[i].fieldId) < 0 {
      assert FirstPerField(all)[|prev|] == all[i];
    }
  }

  /** Each kept record is the first input record with its field id. */
  lemma {:induction false} FirstPerFieldFirst(all: seq<FieldData>, j: int)
    requires 0 <= j < |FirstPerField(all)|
    ensures exists i :: 0 <= i < |all| && all[i] == FirstPerField(all)[j]
                        && forall k :: 0 <= k < i ==> all[k].fieldId != all[i].fieldId
  {
    var init := all[..|all| - 1];
    var prev := FirstPerField(init);
    if j < |prev| {
      FirstPerFieldFirst(init, j);
      var i :| 0 <= i < |init| && init[i] == prev[j] && forall k :: 0 <= k < i ==> init[k].fieldId != init[i].fieldId;
      assert all[i] == init[i];
      assert forall k :: 0 <= k < i ==> all[k] == init[k];
    } else {
      var i := |all| - 1;
      forall k | 0 <= k < i ensures all[k].fieldId != all[i].fieldId {
        assert all[k] == init[k];
        FirstPerFieldComplete(init, k);
      }
    }
  }

  // ---------------------------------------------------------------------
  // field_report.sort(key=lambda x: x['Usage_Count'], reverse=True)

  /** The sort key. */
  function Usage(row: ReportRow): nat
  {
    row.usageCount
  }

  /** Non-increasing order of `key`. */
  predicate SortedBy<T>(xs: seq<T>, key: T -> nat)
  {
    forall i, j :: 0 <= i < j < |xs| ==> key(xs[i]) >= key(xs[j])
  }

  /** The elements whose key is `u`, in order. */
  function WithKey<T>(xs: seq<T>, key: T -> nat, u: nat): seq<T>
  {
    if xs == [] then []
    else (if key(xs[0]) == u then [xs[0]] else []) + WithKey(xs[1..], key, u)
  }

  /** `x` placed after every element of `s` whose key is at least its own. */
  function InsertBy<T>(x: T, s: seq<T>, key: T -> nat): seq<T>
  {
    if s == [] then [x]
    else if key(s[0]) >= key(x) then [s[0]] + InsertBy(x, s[1..], key)
    else [x] + s
  }

  /** A stable sort into non-increasing order of `key`, written as an
      insertion sort. */
  function SortBy<T>(xs: seq<T>, key: T -> nat): seq<T>
  {
    if xs == [] then []
    else InsertBy(xs[|xs| - 1], SortBy(xs[..|xs| - 1], key), key)
  }

  /** Python's `list.sort` descending on `Usage_Count`, which is stable
      (`reverse=True` keeps equal elements in their order). */
  function SortByUsage(rows: seq<ReportRow>): seq<ReportRow>
  {
    SortBy(rows, Usage)
  }

  lemma {:induction false} SortedTail<T>(s: seq<T>, key: T -> nat)
    requires s != [] && SortedBy(s, key)
    ensures SortedBy(s[1..], key)
    ensures forall j :: 0 <= j < |s| ==> key(s[0]) >= key(s[j])
  {
    forall i, j | 0 <= i < j < |s[1..]| ensures key(s[1..][i]) >= key(s[1..][j]) {
      assert s[1..][i] == s[i + 1] && s[1..][j] == s[j + 1];
    }
  }

  lemma {:induction false} InsertByPermutes<T>(x: T, s: seq<T>, key: T -> nat)
    ensures multiset(InsertBy(x, s, key)) == multiset(s) + multiset{x}
  {
    if s != [] && key(s[0]) >= key(x) {
      InsertByPermutes(x, s[1..], key);
      assert s == [s[0]] + s[1..];
    }
  }

  /** Every element of the insertion is `x` or an element of `s`. */
  lemma {:induction false} InsertByElements<T>(x: T, s: seq<T>, key: T -> nat, j: int)
    requires 0 <= j < |InsertBy(x, s, key)|
    ensures InsertBy(x, s, key)[j] == x || exists k :: 0 <= k < |s| && s[k] == InsertBy(x, s, key)[j]
  {
    var r := InsertBy(x, s, key);
    InsertByPermutes(x, s, key);
    assert r[j] in multiset(r);
    if r[j] != x {
      assert r[j] in multiset(s);
    }
  }

  lemma {:induction false} InsertBySorted<T>(x: T, s: seq<T>, key: T -> nat)
    requires SortedBy(s, key)
    ensures SortedBy(InsertBy(x, s, key), key)
  {
    if s != [] && key(s[0]) >= key(x) {
      var rest := InsertBy(x, s[1..], key);
      SortedTail(s, key);
      InsertBySorted(x, s[1..], key);
      forall j | 0 <= j < |rest| ensures key(s[0]) >= key(rest[j]) {
        InsertByElements(x, s[1..], key, j);
        if rest[j] != x {
          var k :| 0 <= k < |s[1..]| && s[1..][k] == rest[j];
          assert s[1..][k] == s[k + 1];
        }
      }
      var r := [s[0]] + rest;
      forall i, j | 0 <= i < j < |r| ensures key(r[i]) >= key(r[j]) {
        assert r[j] == rest[j - 1];
        if i > 0 {
          assert r[i] == rest[i - 1];
        }
      }
    } else if s != [] {
      var r := [x] + s;
      forall i, j | 0 <= i < j < |r| ensures key(r[i]) >= key(r[j]) {
        assert r[j] == s[j - 1];
        if i > 0 {
          assert r[i] == s[i - 1];
        }
      }
    }
  }

  lemma {:induction false} WithKeyAppend<T>(a: seq<T>, b: seq<T>, key: T -> nat, u: nat)
    ensures WithKey(a + b, key, u) == WithKey(a, key, u) + WithKey(b, key, u)
  {
    if a == [] {
      assert a + b == b;
    } else {
      assert (a + b)[1..] == a[1..] + b;
      WithKeyAppend(a[1..], b, key, u);
    }
  }

  lemma {:induction false} WithKeyNone<T>(s: seq<T>, key: T -> nat, u: nat)
    requires forall i :: 0 <= i < |s| ==> key(s[i]) != u
    ensures WithKey(s, key, u) == []
  {
    if s != [] {
      forall i | 0 <= i < |s[1..]| ensures key(s[1..][i]) != u {
        assert s[1..][i] == s[i + 1];
      }
      WithKeyNone(s[1..], key, u);
    }
  }

  /** Inserting `x` puts it after every element of equal key already there. */
  lemma {:induction false} InsertByStable<T>(x: T, s: seq<T>, key: T -> nat, u: nat)
    requires SortedBy(s, key)
    ensures WithKey(InsertBy(x, s, key), key, u) == WithKey(s, key, u) + (if key(x) == u then [x] else [])
  {
    if s == [] {
      assert WithKey([x], key, u) == (if key(x) == u then [x] else []) + WithKey([x][1..], key, u);
      assert [x][1..] == [];
    } else if key(s[0]) >= key(x) {
      SortedTail(s, key);
      InsertByStable(x, s[1..], key, u);
      var head := if key(s[0]) == u then [s[0]] else [];
      var tail := if key(x) == u then [x] else [];
      assert ([s[0]] + InsertBy(x, s[1..], key))[1..] == InsertBy(x, s[1..], key);
      assert head + (WithKey(s[1..], key, u) + tail) == (head + WithKey(s[1..], key, u)) + tail;
    } else {
      assert ([x] + s)[1..] == s;
      if key(x) == u {
        SortedTail(s, key);
        WithKeyNone(s, key, u);
        assert WithKey(s, key, u) + [x] == [x] + WithKey(s, key, u);
      } else {
        assert [] + WithKey(s, key, u) == WithKey(s, key, u) + [];
      }
    }
  }

  /** The sorted sequence is in non-increasing key order and is the input
      rearranged. */
  lemma {:induction false} SortBySorted<T>(xs: seq<T>, key: T -> nat)
    ensures SortedBy(SortBy(xs, key), key)
    ensures multiset(SortBy(xs, key)) == multiset(xs)
  {
    if xs != [] {
      var init := xs[..|xs| - 1];
      SortBySorted(init, key);
      InsertBySorted(xs[|xs| - 1], SortBy(init, key), key);
      InsertByPermutes(xs[|xs| - 1], SortBy(init, key), key);
      assert xs == init + [xs[|xs| - 1]];
    }
  }

  /** The sort is stable: the elements of any one key keep their order. */
  lemma {:induction false} SortByStable<T>(xs: seq<T>, key: T -> nat, u: nat)
    ensures WithKey(SortBy(xs, key), key, u) == WithKey(xs, key, u)
  {
    if xs != [] {
      var init := xs[..|xs| - 1];
      var last := xs[|xs| - 1];
      SortByStable(init, key, u);
      SortBySorted(init, key);
      InsertByStable(last, SortBy(init, key), key, u);
      assert xs == init + [last];
      WithKeyAppend(init, [last], key, u);
      assert [last][1..] == [];
      assert WithKey([last], key, u) == (if key(last) == u then [last] else []) + WithKey([], key, u);
    }
  }

  // ---------------------------------------------------------------------
  // generate_field_report

  type ProjectAnalyser = string -> Result<seq<FieldData>>

  /** `analyze_issue_custom_fields(p)` for each project key `p`, where
      `search(p)` is the decoded search response for `p`, or None when that
      request failed. */
  function Analyser(search: string -> Option<Json>, itemsOf: ItemsOrder, repr: Renderer): ProjectAnalyser
  {
    p => Analysis(search(p), itemsOf, repr)
  }

  /** The analyses of the projects `ps` in turn, their records concatenated
      (`all_field_analysis.extend`); the first one that raises stops it. */
  function AllAnalysis(ps: seq<string>, analyse: ProjectAnalyser): (r: Result<seq<FieldData>>)
    ensures r.Ok? <==> forall i :: 0 <= i < |ps| ==> analyse(ps[i]).Ok?
  {
    if ps == [] then Ok([])
    else
      var init := ps[..|ps| - 1];
      assert forall i :: 0 <= i < |init| ==> init[i] == ps[i];
      var prev :- AllAnalysis(init, analyse);
      var next :- analyse(ps[|ps| - 1]);
      Ok(prev + next)
  }

  /** `generate_field_report(project_keys)` up to the data it exports: the
      report rows, most used first, and the custom-field list. */
  function FieldReport(fieldsResponse: Option<Json>, projectKeys: string, search: string -> Option<Json>,
                       itemsOf: ItemsOrder, repr: Renderer): Result<(seq<ReportRow>, seq<CustomField>)>
  {
    var mappings :- FieldMappings(fieldsResponse);
    var all :- AllAnalysis(SplitTrim(projectKeys), Analyser(search, itemsOf, repr));
    var rows :- Rows(FirstPerField(all), RowsOf(repr));
    Ok((SortByUsage(rows), mappings.1))
  }

  lemma {:induction false} AllAnalysisRaisedStays(ps: seq<string>, analyse: ProjectAnalyser, k: int)
    requires 0 <= k <= |ps| && AllAnalysis(ps[..k], analyse).Raised?
    ensures AllAnalysis(ps, analyse).Raised?
    decreases |ps|
  {
    if k < |ps| {
      var init := ps[..|ps| - 1];
      assert init[..k] == ps[..k];
      AllAnalysisRaisedStays(init, analyse, k);
    } else {
      assert ps[..k] == ps;
    }
  }

  /** The loop of lines 213-216. */
  method AnalyzeProjects(projectList: seq<string>, search: string -> Option<Json>, itemsOf: ItemsOrder, repr: Renderer)
    returns (r: Result<seq<FieldData>>)
    ensures r == AllAnalysis(projectList, Analyser(search, itemsOf, repr))
  {
    ghost var analyse := Analyser(search, itemsOf, repr);
    var all: seq<FieldData> := [];
    var i := 0;
    while i < |projectList|
      invariant 0 <= i <= |projectList|
      invariant AllAnalysis(projectList[..i], analyse) == Ok(all)
    {
      var fieldAnalysis := AnalyzeIssueCustomFields(search(projectList[i]), itemsOf, repr);
      assert projectList[..i + 1][..i] == projectList[..i];
      if fieldAnalysis.Raised? {
        AllAnalysisRaisedStays(projectList, analyse, i + 1);
        return Raised;
      }
      all := all + fieldAnalysis.value;
      i := i + 1;
    }
    assert projectList[..i] == projectList;
    r := Ok(all);
  }

  /** The data steps of lines 203-243. */
  method GenerateFieldReport(fieldsResponse: Option<Json>, projectKeys: string, search: string -> Option<Json>,
                             itemsOf: ItemsOrder, repr: Renderer)
    returns (r: Result<(seq<ReportRow>, seq<CustomField>)>)
    ensures r == FieldReport(fieldsResponse, projectKeys, search, itemsOf, repr)
  {
    var mappings := GetAllFieldMappings(fieldsResponse);
    if mappings.Raised? {
      return Raised;
    }
    var all := AnalyzeProjects(SplitTrim(projectKeys), search, itemsOf, repr);
    if all.Raised? {
      return Raised;
    }
    var rows := CombineFieldData(all.value, RowsOf(repr));
    if rows.Raised? {
      return Raised;
    }
    r := Ok((SortByUsage(rows.value), mappings.value.1));
  }

  /** The report is the sorted rows of the kept records and the custom-field
      list. */
  lemma {:induction false} FieldReportValue(fieldsResponse: Option<Json>, projectKeys: string,
                                            search: string -> Option<Json>, itemsOf: ItemsOrder, repr: Renderer,
                                            all: seq<FieldData>, unsorted: seq<ReportRow>)
    requires FieldMappings(fieldsResponse).Ok?
    requires AllAnalysis(SplitTrim(projectKeys), Analyser(search, itemsOf, repr)) == Ok(all)
    requires Rows(FirstPerField(all), RowsOf(repr)) == Ok(unsorted)
    ensures FieldReport(fieldsResponse, projectKeys, search, itemsOf, repr)
            == Ok((SortByUsage(unsorted), FieldMappings(fieldsResponse).value.1))
  {
  }

  /** The report holds the rows of the first record of each field id, in
      non-increasing order of usage, rows of equal usage in the order their
      fields were first met; the second sheet is the custom-field list. */
  lemma {:induction false} FieldReportOrder(fieldsResponse: Option<Json>, projectKeys: string,
                                            search: string -> Option<Json>, itemsOf: ItemsOrder, repr: Renderer,
                                            all: seq<FieldData>, unsorted: seq<ReportRow>)
    requires FieldMappings(fieldsResponse).Ok?
    requires AllAnalysis(SplitTrim(projectKeys), Analyser(search, itemsOf, repr)) == Ok(all)
    requires Rows(FirstPerField(all), RowsOf(repr)) == Ok(unsorted)
    ensures FieldReport(fieldsResponse, projectKeys, search, itemsOf, repr).Ok?
    ensures var report := FieldReport(fieldsResponse, projectKeys, search, itemsOf, repr).value;
            && report.1 == FieldMappings(fieldsResponse).value.1
            && report.0 == SortByUsage(unsorted)
            && SortedBy(report.0, Usage)
            && multiset(report.0) == multiset(unsorted)
            && forall u :: WithKey(report.0, Usage, u) == WithKey(unsorted, Usage, u)
  {
    FieldReportValue(fieldsResponse, projectKeys, search, itemsOf, repr, all, unsorted);
    SortUsageProperties(unsorted);
  }

  /** `SortByUsage` sorts, rearranges and keeps equal usages in order. */
  lemma {:induction false} SortUsageProperties(rows: seq<ReportRow>)
    ensures SortedBy(SortByUsage(rows), Usage)
    ensures multiset(SortByUsage(rows)) == multiset(rows)
    ensures forall u :: WithKey(SortByUsage(rows), Usage, u) == WithKey(rows, Usage, u)
  {
    SortBySorted(rows, Usage);
    forall u ensures WithKey(SortByUsage(rows), Usage, u) == WithKey(rows, Usage, u) {
      SortByStable(rows, Usage, u);
    }
  }

  /** `all[k]` is the first record with its field id. */
  predicate FirstWithId(all: seq<FieldData>, k: int)
    requires 0 <= k < |all|
  {
    forall m :: 0 <= m < k ==> all[m].fieldId != all[k].fieldId
  }

  /** `row` is the row of the first record of some field. */
  predicate RowOfFirst(all: seq<FieldData>, rowOf: RowMaker, row: ReportRow)
  {
    exists k :: 0 <= k < |all| && rowOf(all[k]) == Ok(row) && FirstWithId(all, k)
  }

  /** Every field met has a row in any rearrangement `rows` of the kept
      records' rows. */
  lemma {:induction false} RowsCoverFields(all: seq<FieldData>, rowOf: RowMaker, unsorted: seq<ReportRow>, rows: seq<ReportRow>, i: int)
    requires Rows(FirstPerField(all), rowOf) == Ok(unsorted) && multiset(rows) == multiset(unsorted)
    requires 0 <= i < |all|
    ensures exists j, k :: 0 <= j < |rows| && 0 <= k < |all| && rowOf(all[k]) == Ok(rows[j])
                           && all[k].fieldId == all[i].fieldId
  {
    var kept := FirstPerField(all);
    FirstPerFieldComplete(all, i);
    var n := IndexOfField(kept, all[i].fieldId);
    assert unsorted[n] in multiset(rows);
    var j :| 0 <= j < |rows| && rows[j] == unsorted[n];
    FirstPerFieldFirst(all, n);
    var k :| 0 <= k < |all| && all[k] == kept[n] && forall m :: 0 <= m < k ==> all[m].fieldId != all[k].fieldId;
    assert rowOf(all[k]) == Ok(rows[j]);
  }

  /** Each row of any rearrangement `rows` of the kept records' rows is the
      row of the first record met for its field. */
  lemma {:induction false} RowsFromFirst(all: seq<FieldData>, rowOf: RowMaker, unsorted: seq<ReportRow>, rows: seq<ReportRow>, j: int)
    requires Rows(FirstPerField(all), rowOf) == Ok(unsorted) && multiset(rows) == multiset(unsorted)
    requires 0 <= j < |rows|
    ensures RowOfFirst(all, rowOf, rows[j])
  {
    var kept := FirstPerField(all);
    assert rows[j] in multiset(unsorted);
    var n :| 0 <= n < |unsorted| && unsorted[n] == rows[j];
    FirstPerFieldFirst(all, n);
    var k :| 0 <= k < |all| && all[k] == kept[n] && forall m :: 0 <= m < k ==> all[m].fieldId != all[k].fieldId;
    assert rowOf(all[k]) == Ok(rows[j]) && FirstWithId(all, k);
  }

  /** Every field met in the projects' issues has a row in the report, one
      row per kept record; this holds for any rearrangement `rows` of the
      kept records' rows, the sorted report among them (`FieldReportOrder`). */
  lemma {:induction false} ReportCoversFields(all: seq<FieldData>, rowOf: RowMaker, unsorted: seq<ReportRow>,
                                              rows: seq<ReportRow>)
    requires Rows(FirstPerField(all), rowOf) == Ok(unsorted) && multiset(rows) == multiset(unsorted)
    ensures |rows| == |FirstPerField(all)|
    ensures forall i :: 0 <= i < |all| ==>
              exists j, k :: 0 <= j < |rows| && 0 <= k < |all| && rowOf(all[k]) == Ok(rows[j])
                             && all[k].fieldId == all[i].fieldId
  {
    assert |rows| == |multiset(rows)| == |multiset(unsorted)| == |unsorted|;
    forall i | 0 <= i < |all|
      ensures exists j, k :: 0 <= j < |rows| && 0 <= k < |all| && rowOf(all[k]) == Ok(rows[j])
                             && all[k].fieldId == all[i].fieldId
    {
      RowsCoverFields(all, rowOf, unsorted, rows, i);
    }
  }

  /** Every row of the report is the row of the first record met for its
      field, for any rearrangement `rows` of the kept records' rows. */
  lemma {:induction false} ReportRowsFromFirst(all: seq<FieldData>, rowOf: RowMaker, unsorted: seq<ReportRow>,
                                               rows: seq<ReportRow>)
    requires Rows(FirstPerField(all), rowOf) == Ok(unsorted) && multiset(rows) == multiset(unsorted)
    ensures forall j :: 0 <= j < |rows| ==> RowOfFirst(all, rowOf, rows[j])
  {
    forall j | 0 <= j < |rows| ensures RowOfFirst(all, rowOf, rows[j]) {
      RowsFromFirst(all, rowOf, unsorted, rows, j);
    }
  }
}
