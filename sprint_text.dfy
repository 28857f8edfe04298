/** The legacy text form in which older tracker versions send a sprint,
    `com.atlassian.greenhopper.service.sprint.Sprint@hash[id=..,name=..,state=..,..]`,
    and where `str.find` locates its `name=` and `state=` markers. */
module SprintText {
  import opened Text

  /** The legacy text form `com.atlassian...Sprint@hash[id=..,name=..,state=..,..]`. */
  function LegacySprintText(head: string, id: string, name: string, state: string, rest: string): string
  {
    head + "[id=" + id + ",name=" + name + ",state=" + state + "," + rest + "]"
  }

  /** The descriptor up to the `state=` marker. */
  function LegacyPrefix(head: string, id: string, name: string): string
  {
    head + "[id=" + id + ",name=" + name + ","
  }

  /** The only `=` signs before `state=` are those of `id=` and `name=`. */
  lemma {:induction false} LegacyPrefixEquals(head: string, id: string, name: string, i: int)
    requires '=' !in head && '=' !in id && '=' !in name
    requires 0 <= i < |LegacyPrefix(head, id, name)|
    ensures var a := LegacyPrefix(head, id, name);
      a[i] != '='
      || (i == |head| + 3 && a[i - 2..i] == "id")
      || (i == |head| + |id| + 9 && a[i - 2..i] == "me")
  {
    var a := LegacyPrefix(head, id, name);
    var p := |head| + 4 + |id|;
    if i < |head| {
      assert a[i] == head[i];
    } else if i < |head| + 4 {
      assert a[|head|..|head| + 4] == "[id=";
    } else if i < p {
      assert a[i] == id[i - |head| - 4];
    } else if i < p + 6 {
      assert a[p..p + 6] == ",name=";
    } else if i < p + 6 + |name| {
      assert a[i] == name[i - p - 6];
    } else {
      assert a[i] == ',';
    }
  }

  /** The first `name=` of a descriptor is the real one. */
  lemma {:induction false} LegacyNameMarker(head: string, id: string, name: string, state: string, rest: string)
    requires '=' !in head && '=' !in id && '=' !in name
    ensures Find(LegacySprintText(head, id, name, state, rest), "name=", 0) == |head| + |id| + 5
  {
    var a := LegacyPrefix(head, id, name);
    var a1 := head + "[id=" + id + ",";
    var t1 := name + ",state=" + state + "," + rest + "]";
    assert LegacySprintText(head, id, name, state, rest) == a1 + "name=" + t1;
    assert a1 == a[..|a1|];
    forall i | 0 <= i < |a1| ensures a1[i] != '=' || (i >= 2 && a1[i - 2..i] != "me") {
      LegacyPrefixEquals(head, id, name, i);
      assert a1[i] == a[i];
      if i >= 2 {
        assert a1[i - 2..i] == a[i - 2..i];
      }
    }
    FindMarker(a1, "name=", t1);
  }

  /** The first `state=` of a descriptor is the real one. */
  lemma {:induction false} LegacyStateMarker(head: string, id: string, name: string, state: string, rest: string)
    requires '=' !in head && '=' !in id && '=' !in name
    ensures Find(LegacySprintText(head, id, name, state, rest), "state=", 0) == |LegacyPrefix(head, id, name)|
  {
    var a := LegacyPrefix(head, id, name);
    var t2 := state + "," + rest + "]";
    assert LegacySprintText(head, id, name, state, rest) == a + "state=" + t2;
    forall i | 0 <= i < |a| ensures a[i] != '=' || (i >= 2 && a[i - 2..i] != "te") {
      LegacyPrefixEquals(head, id, name, i);
    }
    FindMarker(a, "state=", t2);
  }

  /** A `part` at `k` in `s` that does not contain `c` and is followed by `c`
      ends at the next `c`: the comma, or the `]`, that closes a value. */
  lemma {:induction false} EndsAt(s: string, part: string, k: nat, c: char)
    requires c !in part && k + |part| < |s| && s[k..k + |part|] == part && s[k + |part|] == c
    ensures Find(s, [c], k) == k + |part|
  {
    forall j | k <= j < k + |part| ensures s[j] != c {
      assert s[j] == part[j - k];
    }
    FindCharAt(s, c, k, k + |part|);
  }

  /** The text after the first `marker`, up to the next `,` or, when no comma
      follows, the next `]`; `''` when that end is missing or comes first. */
  function ValueAfter(s: string, marker: string): (r: string)
    requires Contains(s, marker)
  {
    var start := Find(s, marker, 0) + |marker|;
    var comma := Find(s, ",", start);
    var end := if comma == -1 then Find(s, "]", start) else comma;
    if end > start then s[start..end] else ""
  }

  /** A comma-free `part` right after the first `marker` and before a comma is
      the value read after that marker. */
  lemma {:induction false} ValueAfterAt(s: string, marker: string, k: nat, part: string)
    requires Contains(s, marker) && Find(s, marker, 0) == k
    requires ',' !in part && k + |marker| + |part| < |s|
    requires s[k + |marker|..k + |marker| + |part|] == part && s[k + |marker| + |part|] == ','
    ensures ValueAfter(s, marker) == part
  {
    EndsAt(s, part, k + |marker|, ',');
  }

  /** With no comma after the first `marker`, the value runs up to the next
      `]`. */
  lemma {:induction false} ValueAfterBracket(s: string, marker: string, k: nat, part: string)
    requires Contains(s, marker) && Find(s, marker, 0) == k
    requires k + |marker| + |part| < |s| && ',' !in s[k + |marker|..]
    requires ']' !in part && s[k + |marker|..k + |marker| + |part|] == part && s[k + |marker| + |part|] == ']'
    ensures ValueAfter(s, marker) == part
  {
    var start := k + |marker|;
    FindCharAbsent(s, ',', start);
    assert Find(s, ",", start) == -1;
    EndsAt(s, part, start, ']');
  }


  /** With neither a comma nor a `]` after the first `marker`, the value is
      `''`. */
  lemma {:induction false} ValueAfterUnterminated(s: string, marker: string)
    requires Contains(s, marker)
    requires Find(s, marker, 0) + |marker| <= |s|
    requires ',' !in s[Find(s, marker, 0) + |marker|..] && ']' !in s[Find(s, marker, 0) + |marker|..]
    ensures ValueAfter(s, marker) == ""
  {
    var start := Find(s, marker, 0) + |marker|;
    FindCharAbsent(s, ',', start);
    FindCharAbsent(s, ']', start);
  }

  /** The name of a descriptor is the value after its `name=`. */
  lemma {:induction false} LegacyNameAfter(head: string, id: string, name: string, state: string, rest: string)
    requires '=' !in head && '=' !in id && '=' !in name && ',' !in name
    ensures Contains(LegacySprintText(head, id, name, state, rest), "name=")
    ensures ValueAfter(LegacySprintText(head, id, name, state, rest), "name=") == name
  {
    var s := LegacySprintText(head, id, name, state, rest);
    var k := |head| + |id| + 5;
    LegacyNameMarker(head, id, name, state, rest);
    assert s[k + 5..k + 5 + |name|] == name;
    assert s[k + 5 + |name|] == ',';
    ValueAfterAt(s, "name=", k, name);
  }

  /** The state of a descriptor is the value after its `state=`. */
  lemma {:induction false} LegacyStateAfter(head: string, id: string, name: string, state: string, rest: string)
    requires '=' !in head && '=' !in id && '=' !in name && ',' !in state
    ensures Contains(LegacySprintText(head, id, name, state, rest), "state=")
    ensures ValueAfter(LegacySprintText(head, id, name, state, rest), "state=") == state
  {
    var s := LegacySprintText(head, id, name, state, rest);
    var k := |LegacyPrefix(head, id, name)|;
    LegacyStateMarker(head, id, name, state, rest);
    assert s[k + 6..k + 6 + |state|] == state;
    assert s[k + 6 + |state|] == ',';
    ValueAfterAt(s, "state=", k, state);
  }
}
