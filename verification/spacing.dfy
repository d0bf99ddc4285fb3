/** Whitespace collapsing: `' '.join(s.split())`. The chat code writes it in
    that form (chatter.py:355); the corpus loader writes it as `strip`,
    `re.sub(r'\s+', ' ', ...)`, `strip` (openings_db.py:87-88), which yields
    the same text. */
module Spacing {
  import opened Chars
  import opened Strings

  /** Index of the first whitespace character at or after `i` (or `|s|`). */
  function WordEnd(s: string, i: nat): (r: nat)
    requires i <= |s|
    ensures i <= r <= |s|
    ensures forall k :: i <= k < r ==> !IsSpace(s[k])
    ensures r < |s| ==> IsSpace(s[r])
    decreases |s| - i
  {
    if i == |s| || IsSpace(s[i]) then i else WordEnd(s, i + 1)
  }

  /** A word in the sense of `str.split()`: non-empty, no whitespace. */
  predicate IsWord(w: string) {
    |w| > 0 && forall k :: 0 <= k < |w| ==> !IsSpace(w[k])
  }

  /** `s.split()`: the maximal runs of non-whitespace characters, in order.
      Leading whitespace is passed over one character at a time; otherwise
      the text starts with its first word. */
  function Words(s: string): (ws: seq<string>)
    ensures forall k :: 0 <= k < |ws| ==> IsWord(ws[k])
    decreases |s|
  {
    if |s| == 0 then []
    else if IsSpace(s[0]) then Words(s[1..])
    else
      var e := WordEnd(s, 0);
      [s[..e]] + Words(s[e..])
  }

  /** `' '.join(s.split())`. */
  function Collapse(s: string): string {
    JoinWith(Words(s), " ")
  }

  /** The shape of collapsed text: no whitespace at either end, and every
      whitespace character is a plain space followed by a non-space. */
  predicate Collapsed(t: string) {
    && Stripped(t)
    && forall i :: 0 <= i < |t| && IsSpace(t[i]) ==> t[i] == ' ' && i + 1 < |t| && !IsSpace(t[i + 1])
  }

  lemma {:induction false} JoinedWordsCollapsed(ws: seq<string>)
    requires forall k :: 0 <= k < |ws| ==> IsWord(ws[k])
    ensures Collapsed(JoinWith(ws, " "))
    ensures |ws| > 0 ==> ws[0] <= JoinWith(ws, " ")
  {
    if |ws| <= 1 {
    } else {
      var rest := JoinWith(ws[1..], " ");
      JoinedWordsCollapsed(ws[1..]);
      var t := JoinWith(ws, " ");
      var w := ws[0];
      assert t == w + " " + rest;
      assert rest[0] == ws[1][0];
      forall i | 0 <= i < |t| && IsSpace(t[i])
        ensures t[i] == ' ' && i + 1 < |t| && !IsSpace(t[i + 1])
      {
        if i < |w| {
          assert false;
        } else if i == |w| {
          assert t[i + 1] == rest[0];
        } else {
          assert t[i] == rest[i - |w| - 1];
          if i + 1 < |t| { assert t[i + 1] == rest[i - |w|]; }
        }
      }
      assert t[|t| - 1] == rest[|rest| - 1];
    }
  }

  /** Collapsing always yields collapsed text. */
  lemma CollapseIsCollapsed(s: string)
    ensures Collapsed(Collapse(s))
  {
    JoinedWordsCollapsed(Words(s));
  }

  /** A word of `s.split()` is a slice of `s`, so what occurs in it occurs
      in `s`; the single spaces put between words cannot belong to an
      occurrence of a text without whitespace. */
  lemma {:induction false} CollapseAddsNoText(s: string, p: string)
    requires |p| > 0 && forall k :: 0 <= k < |p| ==> !IsSpace(p[k])
    requires Contains(Collapse(s), p)
    ensures Contains(s, p)
    decreases |s|
  {
    if |s| == 0 {
      assert false;
    } else if IsSpace(s[0]) {
      CollapseAddsNoText(s[1..], p);
      assert s[1..] == s[1..|s|];
      ContainsSlice(s, 1, |s|, p);
    } else {
      var e := WordEnd(s, 0);
      var w := s[..e];
      var rest := Words(s[e..]);
      assert Words(s) == [w] + rest;
      if |rest| == 0 {
        assert Collapse(s) == w;
        assert w == s[0..e];
        ContainsSlice(s, 0, e, p);
      } else {
        assert ([w] + rest)[1..] == rest;
        assert Collapse(s) == w + " " + Collapse(s[e..]);
        assert ' ' !in p by { assert IsSpace(' '); }
        ContainsAcrossSeparator(w, ' ', Collapse(s[e..]), p);
        if Contains(w, p) {
          assert w == s[0..e];
          ContainsSlice(s, 0, e, p);
        } else {
          CollapseAddsNoText(s[e..], p);
          assert s[e..] == s[e..|s|];
          ContainsSlice(s, e, |s|, p);
        }
      }
    }
  }

  /** Words joined by single spaces split back into the same words. */
  lemma {:induction false} JoinedWordsSplit(ws: seq<string>)
    requires forall k :: 0 <= k < |ws| ==> IsWord(ws[k])
    ensures Words(JoinWith(ws, " ")) == ws
  {
    if |ws| == 1 {
      CollapseWord(ws[0]);
      WordOfItself(ws[0]);
    } else if |ws| > 1 {
      var w, rest := ws[0], JoinWith(ws[1..], " ");
      var t := w + " " + rest;
      JoinedWordsSplit(ws[1..]);
      WordEndFrom(t, 0, |w|);
      assert t[..|w|] == w;
      assert t[|w|..] == " " + rest;
      assert (" " + rest)[1..] == rest;
      assert Words(t) == [w] + Words(rest);
      assert ws == [w] + ws[1..];
    }
  }

  /** A single word is its own split. */
  lemma WordOfItself(w: string)
    requires IsWord(w)
    ensures Words(w) == [w]
  {
    assert WordEnd(w, 0) == |w|;
    assert w[..|w|] == w;
    assert Words(w[|w|..]) == [];
  }

  /** Collapsing keeps the words of the text, in order: only the
      whitespace between them changes. */
  lemma CollapseKeepsWords(s: string)
    ensures Words(Collapse(s)) == Words(s)
  {
    JoinedWordsSplit(Words(s));
  }

  /** Collapsing text that is already collapsed changes nothing. */
  lemma {:induction false} CollapseIdempotent(t: string)
    requires Collapsed(t)
    ensures Collapse(t) == t
    decreases |t|
  {
    if |t| > 0 {
      var e := WordEnd(t, 0);
      if e == |t| {
        CollapseWord(t);
      } else {
        var w, u := t[..e], t[e + 1..];
        CollapsedTail(t, e);
        CollapseIdempotent(u);
        assert t == w + " " + u;
        CollapseCons(w, u);
      }
    }
  }

  /** A single word collapses to itself. */
  lemma CollapseWord(w: string)
    requires IsWord(w)
    ensures Collapse(w) == w
  {
    assert WordEnd(w, 0) == |w|;
    assert w[..|w|] == w;
    assert Words(w[|w|..]) == [];
  }

  /** Collapsed text stays collapsed after its first word and the space
      that ends it are cut off. */
  lemma CollapsedTail(t: string, e: nat)
    requires Collapsed(t) && e < |t| && IsSpace(t[e])
    ensures t[e] == ' ' && e + 1 < |t| && !IsSpace(t[e + 1])
    ensures Collapsed(t[e + 1..])
  {
    var u := t[e + 1..];
    forall i | 0 <= i < |u| && IsSpace(u[i])
      ensures u[i] == ' ' && i + 1 < |u| && !IsSpace(u[i + 1])
    {
      assert u[i] == t[e + 1 + i];
      if i + 1 < |u| { assert u[i + 1] == t[e + 2 + i]; }
    }
  }

  /** A word followed by a space and more text collapses to the word, a
      space and the collapsed rest. */
  lemma CollapseCons(w: string, y: string)
    requires IsWord(w) && Collapse(y) != ""
    ensures Collapse(w + " " + y) == w + " " + Collapse(y)
  {
    var x := w + " " + y;
    WordEndFrom(x, 0, |w|);
    assert x[..|w|] == w;
    assert x[|w|..] == " " + y;
    assert (" " + y)[1..] == y;
    assert Words(x) == [w] + Words(y);
    JoinCons(w, Words(y));
  }

  lemma {:induction false} WordEndFrom(x: string, i: nat, n: nat)
    requires i <= n < |x| && IsSpace(x[n]) && forall k :: i <= k < n ==> !IsSpace(x[k])
    ensures WordEnd(x, i) == n
    decreases n - i
  {
    if i < n { WordEndFrom(x, i + 1, n); }
  }

  lemma JoinCons(w: string, ws: seq<string>)
    requires |ws| > 0
    ensures JoinWith([w] + ws, " ") == w + " " + JoinWith(ws, " ")
  {
    assert ([w] + ws)[1..] == ws;
  }
}
