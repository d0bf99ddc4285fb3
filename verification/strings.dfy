/** The `str` operations the core relies on: `in` (substring), `strip`,
    `join` and `replace`. Prefix tests (`startswith`) are Dafny's `<=` on
    sequences. */
module Strings {
  import opened Chars
  import opened Outcomes

  /** `p` occurs in `s` starting at index `i`. */
  predicate OccursAt(s: string, p: string, i: int) {
    0 <= i <= |s| - |p| && s[i..i + |p|] == p
  }

  /** `p in s` for strings: `p` occurs somewhere in `s`. */
  predicate Contains(s: string, p: string) {
    exists i | 0 <= i <= |s| - |p| :: OccursAt(s, p, i)
  }

  lemma ContainsSlice(s: string, i: int, j: int, p: string)
    requires 0 <= i <= j <= |s|
    requires Contains(s[i..j], p)
    ensures Contains(s, p)
  {
    var k :| 0 <= k <= |s[i..j]| - |p| && OccursAt(s[i..j], p, k);
    var x, y := s[i + k..i + k + |p|], s[i..j][k..k + |p|];
    assert x == y by {
      forall m | 0 <= m < |p| ensures x[m] == y[m] {
        SliceAt(s, i + k, |p|, m);
        SliceAt(s[i..j], k, |p|, m);
        SliceAt(s, i, j - i, k + m);
      }
    }
    assert OccursAt(s, p, i + k);
  }

  /** An occurrence inside an occurrence is an occurrence. */
  lemma ContainsTransitive(s: string, t: string, p: string)
    requires Contains(s, t) && Contains(t, p)
    ensures Contains(s, p)
  {
    var k :| 0 <= k <= |s| - |t| && OccursAt(s, t, k);
    ContainsSlice(s, k, k + |t|, p);
  }

  /** An occurrence of `p` in `a + [c] + b` lies in `a` or in `b` when the
      separator `c` does not occur in `p`. */
  lemma ContainsAcrossSeparator(a: string, c: char, b: string, p: string)
    requires c !in p
    requires Contains(a + [c] + b, p)
    ensures Contains(a, p) || Contains(b, p)
  {
    var s := a + [c] + b;
    var k :| 0 <= k <= |s| - |p| && OccursAt(s, p, k);
    if k + |p| <= |a| {
      assert a[k..k + |p|] == s[k..k + |p|];
      assert OccursAt(a, p, k);
    } else if k > |a| {
      assert b[k - |a| - 1..k - |a| - 1 + |p|] == s[k..k + |p|];
      assert OccursAt(b, p, k - |a| - 1);
    } else {
      SliceAt(s, k, |p|, |a| - k);
      assert false;
    }
  }

  /** Index of the first `c` at or after `i`, if any. */
  function IndexOf(s: string, c: char, i: nat): (r: Option<nat>)
    requires i <= |s|
    ensures r.Some? ==> i <= r.value < |s| && s[r.value] == c
    ensures r.Some? ==> forall k :: i <= k < r.value ==> s[k] != c
    ensures r.None? ==> forall k :: i <= k < |s| ==> s[k] != c
    decreases |s| - i
  {
    if i == |s| then None
    else if s[i] == c then Some(i)
    else IndexOf(s, c, i + 1)
  }

  /** Index of the first non-space character at or after `i` (or `|s|`). */
  function SkipSpace(s: string, i: nat): (r: nat)
    requires i <= |s|
    ensures i <= r <= |s|
    ensures forall k :: i <= k < r ==> IsSpace(s[k])
    ensures r < |s| ==> !IsSpace(s[r])
    decreases |s| - i
  {
    if i == |s| || !IsSpace(s[i]) then i else SkipSpace(s, i + 1)
  }

  /** Index just past the last non-space character before `j` (or 0). */
  function TrimEnd(s: string, j: nat): (r: nat)
    requires j <= |s|
    ensures r <= j
    ensures forall k :: r <= k < j ==> IsSpace(s[k])
    ensures r > 0 ==> !IsSpace(s[r - 1])
  {
    if j == 0 || !IsSpace(s[j - 1]) then j else TrimEnd(s, j - 1)
  }

  /** No whitespace at either end. */
  predicate Stripped(s: string) {
    |s| == 0 || (!IsSpace(s[0]) && !IsSpace(s[|s| - 1]))
  }

  /** `s.strip()`: the slice of `s` left once the leading and trailing
      whitespace runs are cut off (StripShape). */
  function Strip(s: string): (r: string)
    ensures Stripped(r)
  {
    var i := SkipSpace(s, 0);
    var j := TrimEnd(s, |s|);
    if j <= i then ""
    else
      assert s[i..j][0] == s[i] && s[i..j][j - i - 1] == s[j - 1];
      s[i..j]
  }

  /** `strip` keeps one slice of the text and cuts only whitespace before
      and after it. */
  lemma StripShape(s: string)
    ensures exists i, j :: 0 <= i <= j <= |s| && Strip(s) == s[i..j]
              && (forall k :: 0 <= k < i ==> IsSpace(s[k]))
              && (forall k :: j <= k < |s| ==> IsSpace(s[k]))
  {
    var i := SkipSpace(s, 0);
    var j := TrimEnd(s, |s|);
    if j <= i {
      forall k | 0 <= k < |s| ensures IsSpace(s[k]) {
        if k >= j {} else {}
      }
      assert Strip(s) == s[i..i];
    } else {
      assert Strip(s) == s[i..j];
    }
  }

  /** `strip` cuts exactly the whitespace runs at the two ends. */
  lemma StripExact(s: string, i: nat, j: nat)
    requires i <= j <= |s|
    requires forall k :: 0 <= k < i ==> IsSpace(s[k])
    requires forall k :: j <= k < |s| ==> IsSpace(s[k])
    requires i < j ==> !IsSpace(s[i]) && !IsSpace(s[j - 1])
    ensures Strip(s) == s[i..j]
  {
    var a := SkipSpace(s, 0);
    var b := TrimEnd(s, |s|);
    if i < j {
      assert a == i;
      assert b == j;
    } else {
      assert forall k :: 0 <= k < |s| ==> IsSpace(s[k]);
      assert a == |s|;
    }
  }

  /** The first `c` at or after `i` is found where it is. */
  lemma IndexOfFirst(s: string, c: char, i: nat, k: nat)
    requires i <= k < |s| && s[k] == c
    requires forall q :: i <= q < k ==> s[q] != c
    ensures IndexOf(s, c, i) == Some(k)
  {
  }

  lemma StrippedIsFixed(s: string)
    requires Stripped(s)
    ensures Strip(s) == s
  {
    if |s| > 0 {
      assert SkipSpace(s, 0) == 0;
      assert TrimEnd(s, |s|) == |s|;
      assert s[0..|s|] == s;
    }
  }

  /** The stripped text occurs in the original. */
  lemma StripOccurs(s: string)
    ensures Contains(s, Strip(s))
  {
    StripShape(s);
    var i, j :| 0 <= i <= j <= |s| && Strip(s) == s[i..j];
    assert OccursAt(s, Strip(s), i);
  }

  /** A character missing from a text is missing from every slice of it. */
  lemma CharNotInSlice(s: string, t: string, c: char)
    requires exists i, j :: 0 <= i <= j <= |s| && t == s[i..j]
    ensures c !in s ==> c !in t
  {
    var i, j :| 0 <= i <= j <= |s| && t == s[i..j];
  }

  /** `sep.join(ws)`. */
  function JoinWith(ws: seq<string>, sep: string): string
  {
    if |ws| == 0 then ""
    else if |ws| == 1 then ws[0]
    else ws[0] + sep + JoinWith(ws[1..], sep)
  }

  /** `s.split(sep)` for a one-character separator: the pieces between
      separators, which the separator joins back into `s`. */
  function SplitOn(s: string, sep: char): (parts: seq<string>)
    ensures |parts| > 0
    ensures forall k :: 0 <= k < |parts| ==> sep !in parts[k]
    ensures JoinWith(parts, [sep]) == s
    decreases |s|
  {
    match IndexOf(s, sep, 0)
    case None => [s]
    case Some(i) =>
      var rest := SplitOn(s[i + 1..], sep);
      assert ([s[..i]] + rest)[1..] == rest;
      assert s == s[..i] + [sep] + s[i + 1..];
      [s[..i]] + rest
  }

  /** Splitting text joined by a separator splits both halves. */
  lemma {:induction false} SplitOnAppend(x: string, y: string, sep: char)
    ensures SplitOn(x + [sep] + y, sep) == SplitOn(x, sep) + SplitOn(y, sep)
    decreases |x|
  {
    var s := x + [sep] + y;
    match IndexOf(x, sep, 0)
    case None =>
      IndexOfFirst(s, sep, 0, |x|);
      assert s[..|x|] == x && s[|x| + 1..] == y;
    case Some(i) =>
      IndexOfFirst(s, sep, 0, i);
      assert s[..i] == x[..i];
      assert s[i + 1..] == x[i + 1..] + [sep] + y;
      SplitOnAppend(x[i + 1..], y, sep);
  }

  /** `s.replace(pat, rep)`: every occurrence, scanning left to right and
      never re-examining replaced text. */
  function ReplaceAll(s: string, pat: string, rep: string): string
    requires |pat| > 0
    decreases |s|
  {
    if |s| == 0 then ""
    else if pat <= s then rep + ReplaceAll(s[|pat|..], pat, rep)
    else [s[0]] + ReplaceAll(s[1..], pat, rep)
  }

  /** Text in which the pattern does not occur is left as it is. */
  lemma {:induction false} ReplaceAbsent(s: string, pat: string, rep: string)
    requires |pat| > 0 && !Contains(s, pat)
    ensures ReplaceAll(s, pat, rep) == s
    decreases |s|
  {
    if |s| > 0 {
      if pat <= s {
        assert OccursAt(s, pat, 0);
      }
      assert !Contains(s[1..], pat) by {
        if Contains(s[1..], pat) {
          var k :| 0 <= k <= |s[1..]| - |pat| && OccursAt(s[1..], pat, k);
          assert s[k + 1..k + 1 + |pat|] == s[1..][k..k + |pat|];
          assert OccursAt(s, pat, k + 1);
        }
      }
      ReplaceAbsent(s[1..], pat, rep);
      assert s == [s[0]] + s[1..];
    }
  }

  /** A text that never holds the pattern's first character holds no
      occurrence of it. */
  lemma AbsentHead(s: string, pat: string)
    requires |pat| > 0 && pat[0] !in s
    ensures !Contains(s, pat)
  {
  }

  /** A leading occurrence is replaced, and a rest without the pattern is
      kept as it is. */
  lemma ReplaceOnlyHead(pat: string, rest: string, rep: string)
    requires |pat| > 0 && !Contains(rest, pat)
    ensures ReplaceAll(pat + rest, pat, rep) == rep + rest
  {
    assert (pat + rest)[|pat|..] == rest;
    ReplaceAbsent(rest, pat, rep);
  }

  lemma SliceAt(s: string, k: int, n: int, m: int)
    ensures 0 <= k && k + n <= |s| && 0 <= m < n ==> s[k..k + n][m] == s[k + m]
  {
  }

  lemma PrefixHead(w: string, t: string)
    ensures |w| > 0 && w <= t ==> w[0] == t[0]
  {
  }

  /** A text `w` that does not contain the first character of the
      replacement appears at the start of the replaced text only if it
      already appeared at the start of the original. */
  lemma {:induction false} ReplacePreservesPrefixFree(s: string, pat: string, rep: string, w: string)
    requires |pat| > 0 && |rep| > 0 && rep[0] !in w
    requires w <= ReplaceAll(s, pat, rep)
    ensures w <= s
    decreases |s|
  {
    if |w| == 0 {
    } else if |s| == 0 {
    } else if pat <= s {
      PrefixHead(w, ReplaceAll(s, pat, rep));
      assert false;
    } else {
      var rest := ReplaceAll(s[1..], pat, rep);
      assert w[1..] <= rest by {
        assert ReplaceAll(s, pat, rep) == [s[0]] + rest;
        assert forall k :: 0 <= k < |w| - 1 ==> w[1..][k] == w[k + 1] == rest[k];
      }
      assert rep[0] !in w[1..];
      ReplacePreservesPrefixFree(s[1..], pat, rep, w[1..]);
      assert w == [s[0]] + w[1..];
    }
  }

  /** Prepending a character that cannot start `p` adds no occurrence. */
  lemma ContainsCons(c: char, x: string, p: string)
    requires |p| > 0 && c != p[0]
    ensures Contains([c] + x, p) <==> Contains(x, p)
  {
    var s := [c] + x;
    if Contains(s, p) {
      var k :| 0 <= k <= |s| - |p| && OccursAt(s, p, k);
      assert k != 0 by { assert s[0] == c; }
      assert x[k - 1..k - 1 + |p|] == s[k..k + |p|];
      assert OccursAt(x, p, k - 1);
    }
    if Contains(x, p) {
      var k :| 0 <= k <= |x| - |p| && OccursAt(x, p, k);
      assert s[k + 1..k + 1 + |p|] == x[k..k + |p|];
      assert OccursAt(s, p, k + 1);
    }
  }

  /** A text that does not start with `p` contains `p` exactly when its
      tail after the first character does. */
  lemma ContainsPastHead(c: char, x: string, p: string)
    requires !(p <= [c] + x)
    ensures Contains([c] + x, p) <==> Contains(x, p)
  {
    var s := [c] + x;
    if Contains(s, p) {
      var k :| 0 <= k <= |s| - |p| && OccursAt(s, p, k);
      assert k != 0;
      var u, v := x[k - 1..k - 1 + |p|], s[k..k + |p|];
      forall m | 0 <= m < |p| ensures u[m] == v[m] {
        assert s[k + m] == x[k - 1 + m];
      }
      assert u == v;
      assert OccursAt(x, p, k - 1);
    }
    if Contains(x, p) {
      var k :| 0 <= k <= |x| - |p| && OccursAt(x, p, k);
      assert s[k + 1..k + 1 + |p|] == x[k..k + |p|];
      assert OccursAt(s, p, k + 1);
    }
  }

  /** Prepending text none of whose characters can start `p` adds no
      occurrence. */
  lemma {:induction false} ContainsAfterForeignText(a: string, x: string, p: string)
    requires |p| > 0
    requires forall k :: 0 <= k < |a| ==> a[k] != p[0]
    ensures Contains(a + x, p) <==> Contains(x, p)
    decreases |a|
  {
    if |a| > 0 {
      ContainsAfterForeignText(a[1..], x, p);
      assert a + x == [a[0]] + (a[1..] + x);
      ContainsCons(a[0], a[1..] + x, p);
    } else {
      assert a + x == x;
    }
  }

  /** Replacing cannot make a text start with "Engine" when the first
      character is kept: the "ngine" after it was already there. */
  lemma EnginePrefixKept(c: char, x: string)
    ensures "Engine" <= [c] + ReplaceAll(x, "Engine", "Evaluation") ==> "Engine" <= [c] + x
  {
    var pat, rep := "Engine", "Evaluation";
    var r := [c] + ReplaceAll(x, pat, rep);
    if pat <= r {
      var w := pat[1..];
      forall m | 0 <= m < |w| ensures w[m] == ReplaceAll(x, pat, rep)[m] {
        assert r[m + 1] == ReplaceAll(x, pat, rep)[m];
      }
      assert w <= ReplaceAll(x, pat, rep);
      ReplacePreservesPrefixFree(x, pat, rep, w);
      assert pat == [c] + w;
    }
  }

  /** After `s.replace('Engine', 'Evaluation')` no `Engine` is left. */
  lemma {:induction false} EngineReplacedEverywhere(s: string)
    ensures !Contains(ReplaceAll(s, "Engine", "Evaluation"), "Engine")
    decreases |s|
  {
    var pat, rep := "Engine", "Evaluation";
    var r := ReplaceAll(s, pat, rep);
    if |s| == 0 {
    } else if pat <= s {
      var rest := ReplaceAll(s[|pat|..], pat, rep);
      EngineReplacedEverywhere(s[|pat|..]);
      assert r == [rep[0]] + (rep[1..] + rest);
      ContainsAfterForeignText(rep[1..], rest, pat);
      assert r[1] == 'v';
      ContainsPastHead(rep[0], rep[1..] + rest, pat);
    } else {
      var rest := ReplaceAll(s[1..], pat, rep);
      EngineReplacedEverywhere(s[1..]);
      assert r == [s[0]] + rest;
      EnginePrefixKept(s[0], s[1..]);
      assert s == [s[0]] + s[1..];
      ContainsPastHead(s[0], rest, pat);
    }
  }
}
