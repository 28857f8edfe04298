/** The Python `str` operations the exporters use, on `string` = `seq<char>`
    (one `char` per Unicode scalar value, as Python indexes code points). */
module Text {

  /** `sub` occurs in `s` starting at index `k`. */
  predicate OccursAt(s: string, sub: string, k: int)
  {
    0 <= k && k + |sub| <= |s| && s[k..k + |sub|] == sub
  }

  /** Python `s.find(sub, start)` for a non-negative `start`: the first index at
      or after `start` where `sub` occurs, or -1. */
  function Find(s: string, sub: string, start: nat): (r: int)
    ensures r == -1 || (start <= r && OccursAt(s, sub, r))
    ensures r >= 0 ==> forall k :: start <= k < r ==> !OccursAt(s, sub, k)
    ensures r == -1 ==> forall k :: start <= k ==> !OccursAt(s, sub, k)
    decreases |s| - start
  {
    if start + |sub| > |s| then -1
    else if s[start..start + |sub|] == sub then start
    else Find(s, sub, start + 1)
  }

  /** `Find` returns `j` when `sub` occurs at `j` and nowhere in between. */
  lemma {:induction false} FindAt(s: string, sub: string, start: nat, j: int)
    requires start <= j && OccursAt(s, sub, j)
    requires forall k :: start <= k < j ==> !OccursAt(s, sub, k)
    ensures Find(s, sub, start) == j
  {
  }

  /** The first `key=` marker of `a + marker + t` is the one after `a`, when
      every `=` in `a` follows two characters other than the two before the
      `=` of `marker` (so no earlier text can spell `marker`). */
  lemma {:induction false} FindMarker(a: string, marker: string, t: string)
    requires |marker| >= 3 && marker[|marker| - 1] == '=' && '=' !in marker[..|marker| - 1]
    requires forall i :: 0 <= i < |a| ==>
               a[i] != '=' || (i >= 2 && a[i - 2..i] != marker[|marker| - 3..|marker| - 1])
    ensures Find(a + marker + t, marker, 0) == |a|
  {
    var s := a + marker + t;
    var m := |marker|;
    assert s[|a|..|a| + m] == marker;
    forall k | 0 <= k < |a| ensures !OccursAt(s, marker, k) {
      var e := k + m - 1;
      var w := s[k..k + m];
      if e >= |a| {
        assert marker[e - |a|] in marker[..m - 1];
        assert w[m - 1] == marker[e - |a|] != '=';
      } else if a[e] != '=' {
        assert w[m - 1] == a[e];
      } else {
        assert a[e - 2..e] == s[e - 2..e] == w[m - 3..m - 1];
      }
      assert w != marker;
    }
    FindAt(s, marker, 0, |a|);
  }

  /** `Find` of a one-character string returns `j` when `s[j]` is that character
      and none of `s[start..j]` is. */
  lemma {:induction false} FindCharAt(s: string, c: char, start: nat, j: int)
    requires start <= j < |s| && s[j] == c
    requires forall k :: start <= k < j ==> s[k] != c
    ensures Find(s, [c], start) == j
  {
    assert s[j..j + 1] == [c];
    forall k | start <= k < j ensures !OccursAt(s, [c], k) {
      assert s[k..k + 1] == [s[k]];
    }
    FindAt(s, [c], start, j);
  }

  /** Python `sub in s`. */
  predicate Contains(s: string, sub: string)
  {
    Find(s, sub, 0) >= 0
  }

  lemma {:induction false} ContainsIff(s: string, sub: string)
    ensures Contains(s, sub) <==> exists k :: OccursAt(s, sub, k)
  {
    if Contains(s, sub) {
      assert OccursAt(s, sub, Find(s, sub, 0));
    }
  }

  /** Python `s.startswith(p)`. */
  predicate StartsWith(s: string, p: string)
  {
    |p| <= |s| && s[..|p|] == p
  }

  /** Python `str.isspace` for one character (the Unicode White_Space set
      Python uses: bidirectional classes WS, B, S and category Zs). */
  predicate IsSpace(c: char)
  {
    var n := c as int;
    n == 0x20 || 0x09 <= n <= 0x0D || 0x1C <= n <= 0x1F || n == 0x85 || n == 0xA0
    || n == 0x1680 || 0x2000 <= n <= 0x200A || n == 0x2028 || n == 0x2029
    || n == 0x202F || n == 0x205F || n == 0x3000
  }

  /** The end of the run of white space that starts at `i`. */
  function SpaceRunEnd(s: string, i: nat): (n: nat)
    requires i <= |s|
    ensures i <= n <= |s|
    ensures forall k :: i <= k < n ==> IsSpace(s[k])
    ensures n == |s| || !IsSpace(s[n])
    decreases |s| - i
  {
    if i < |s| && IsSpace(s[i]) then SpaceRunEnd(s, i + 1) else i
  }

  /** The start of the run of white space that ends at `j`, going no lower
      than `floor`. */
  function SpaceRunStart(s: string, floor: nat, j: nat): (n: nat)
    requires floor <= j <= |s|
    ensures floor <= n <= j
    ensures forall k :: n <= k < j ==> IsSpace(s[k])
    ensures n == floor || !IsSpace(s[n - 1])
  {
    if j > floor && IsSpace(s[j - 1]) then SpaceRunStart(s, floor, j - 1) else j
  }

  /** Python `s.strip()`: `s` without its leading and trailing white space. */
  function Strip(s: string): (r: string)
    ensures exists i, j :: 0 <= i <= j <= |s| && r == s[i..j]
                           && (forall k :: 0 <= k < i ==> IsSpace(s[k]))
                           && (forall k :: j <= k < |s| ==> IsSpace(s[k]))
    ensures r == [] || (!IsSpace(r[0]) && !IsSpace(r[|r| - 1]))
  {
    var i := SpaceRunEnd(s, 0);
    var j := SpaceRunStart(s, i, |s|);
    assert j > i ==> s[i..j][0] == s[i] && s[i..j][j - i - 1] == s[j - 1];
    s[i..j]
  }

  /** Python `str.lower` restricted to ASCII letters. */
  function LowerChar(c: char): char
  {
    if 'A' <= c <= 'Z' then (c as int + 32) as char else c
  }

  function Lower(s: string): (r: string)
    ensures |r| == |s| && forall i :: 0 <= i < |s| ==> r[i] == LowerChar(s[i])
  {
    seq(|s|, i requires 0 <= i < |s| => LowerChar(s[i]))
  }

  /** Python `s[:n]`: the first `n` characters, or all of `s` when it is
      shorter. */
  function Take(s: string, n: nat): (r: string)
    ensures |r| == if |s| <= n then |s| else n
    ensures r == s[..|r|]
  {
    if |s| <= n then s else s[..n]
  }

  /** Python `sep.join(parts)`. */
  function Join(sep: string, parts: seq<string>): string
  {
    if parts == [] then ""
    else if |parts| == 1 then parts[0]
    else parts[0] + sep + Join(sep, parts[1..])
  }

  lemma {:induction false} JoinAppend(sep: string, parts: seq<string>, x: string)
    ensures Join(sep, parts + [x]) == if parts == [] then x else Join(sep, parts) + sep + x
  {
    if |parts| > 1 {
      assert (parts + [x])[1..] == parts[1..] + [x];
      JoinAppend(sep, parts[1..], x);
    } else if |parts| == 1 {
      assert (parts + [x])[1..] == [x];
    }
  }

  /** A character that does not occur from `k` on is not found from `k`. */
  lemma {:induction false} FindCharAbsent(s: string, c: char, k: nat)
    requires k <= |s| && c !in s[k..]
    ensures Find(s, [c], k) == -1
  {
    forall j | k <= j ensures !OccursAt(s, [c], j) {
      if j < |s| {
        assert s[j..j + 1] == [s[j]] && s[j] == s[k..][j - k];
      }
    }
  }

  /** Python `s.split(sep)` for a one-character separator. */
  function Split(s: string, sep: char): (r: seq<string>)
    ensures |r| >= 1
    ensures forall k :: 0 <= k < |r| ==> sep !in r[k]
    ensures Join([sep], r) == s
    decreases |s|
  {
    var i := Find(s, [sep], 0);
    if i < 0 then
      assert forall k :: 0 <= k < |s| ==> s[k] != sep by {
        forall k | 0 <= k < |s| ensures s[k] != sep {
          assert !OccursAt(s, [sep], k);
          assert s[k..k + 1] == [s[k]];
        }
      }
      [s]
    else
      assert s[i..i + 1] == [sep];
      assert forall k :: 0 <= k < i ==> s[k] != sep by {
        forall k | 0 <= k < i ensures s[k] != sep {
          assert !OccursAt(s, [sep], k);
          assert s[k..k + 1] == [s[k]];
        }
      }
      var rest := Split(s[i + 1..], sep);
      assert s == s[..i] + [sep] + s[i + 1..];
      [s[..i]] + rest
  }

  /** A string without the separator splits into itself. */
  lemma {:induction false} SplitNone(s: string, sep: char)
    requires sep !in s
    ensures Split(s, sep) == [s]
  {
    assert s[0..] == s;
    FindCharAbsent(s, sep, 0);
  }

  /** A string splits at its first separator. */
  lemma {:induction false} SplitFirst(s: string, sep: char, i: nat)
    requires i < |s| && s[i] == sep && forall k :: 0 <= k < i ==> s[k] != sep
    ensures Split(s, sep) == [s[..i]] + Split(s[i + 1..], sep)
  {
    FindCharAt(s, sep, 0, i);
  }

  /** Splitting the join of separator-free parts gives the parts back. */
  lemma {:induction false} SplitJoin(parts: seq<string>, sep: char)
    requires |parts| >= 1 && forall k :: 0 <= k < |parts| ==> sep !in parts[k]
    ensures Split(Join([sep], parts), sep) == parts
    decreases |parts|
  {
    if |parts| == 1 {
      SplitNone(parts[0], sep);
    } else {
      var head, rest := parts[0], Join([sep], parts[1..]);
      var s := head + [sep] + rest;
      assert Join([sep], parts) == s;
      forall k | 0 <= k < |head| ensures s[k] != sep {
        assert s[k] == head[k];
      }
      SplitFirst(s, sep, |head|);
      assert s[..|head|] == head && s[|head| + 1..] == rest;
      SplitJoin(parts[1..], sep);
      assert parts == [head] + parts[1..];
    }
  }

  /** `[k.strip() for k in s.split(',')]`, the parse every script applies to a
      comma-separated list of project keys or keywords. */
  function SplitTrim(s: string): (r: seq<string>)
    ensures |r| == |Split(s, ',')|
    ensures forall k :: 0 <= k < |r| ==> r[k] == Strip(Split(s, ',')[k])
  {
    var parts := Split(s, ',');
    seq(|parts|, k requires 0 <= k < |parts| => Strip(parts[k]))
  }

  /** The ASCII digit for `d`. */
  function DigitChar(d: nat): (c: char)
    requires d < 10
    ensures '0' <= c <= '9' && c as int - '0' as int == d
  {
    ('0' as int + d) as char
  }

  /** Python `str(n)` for a natural number. */
  function NatToString(n: nat): (r: string)
    ensures |r| >= 1
    ensures forall i :: 0 <= i < |r| ==> '0' <= r[i] <= '9'
  {
    if n < 10 then [DigitChar(n)] else NatToString(n / 10) + [DigitChar(n % 10)]
  }

  /** Value of a string of ASCII digits. */
  function DigitsValue(s: string): nat
    requires forall i :: 0 <= i < |s| ==> '0' <= s[i] <= '9'
  {
    if s == [] then 0 else DigitsValue(s[..|s| - 1]) * 10 + (s[|s| - 1] as int - '0' as int)
  }

  lemma {:induction false} NatToStringRoundTrip(n: nat)
    ensures DigitsValue(NatToString(n)) == n
  {
    if n >= 10 {
      var s := NatToString(n);
      assert s[..|s| - 1] == NatToString(n / 10);
      NatToStringRoundTrip(n / 10);
    }
  }

  /** Python `str(i)` for an integer. */
  function IntToString(i: int): (r: string)
    ensures r != []
    ensures i < 0 <==> r[0] == '-'
  {
    if i < 0 then "-" + NatToString(-i) else NatToString(i)
  }
}
