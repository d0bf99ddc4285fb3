/** The corpus the resolver works on: the choice between the fallback
    table and the parsed file (openings_db.py:6-109), and facts about
    parsing and resolving that relate several calls. */
module Corpus {
  import opened Outcomes
  import opened Chars
  import opened Strings
  import opened Spacing
  import opened Openings
  import opened FallbackTable

  /** What happened when the loader looked for the corpus file. */
  datatype Source =
    | Missing                 // no `Openings.txt`
    | Unreadable              // present, but no encoding could read it
    | Read(text: string)      // decoded contents

  /** The corpus the loader settles on: the fallback table when the file is
      missing or unreadable, else the entries parsed from its text. Either
      way every entry is well formed. */
  function Load(src: Source): (r: seq<Entry>)
    ensures !src.Read? ==> r == Fallback && |r| == 10
    ensures src.Read? ==> r == ParseCorpus(src.text)
    ensures forall k :: 0 <= k < |r| ==> WellFormed(r[k])
  {
    match src
    case Missing => FallbackWellFormed(); Fallback
    case Unreadable => FallbackWellFormed(); Fallback
    case Read(text) => GatherWellFormed(SplitOn(text, '\n'), Contribution); ParseCorpus(text)
  }

  // ---------------------------------------------------------------------
  // Parsing

  /** Entries appear in file order: the corpus of two texts joined by a
      newline is the corpus of the first followed by that of the second. */
  lemma ParseCorpusAppend(x: string, y: string)
    ensures ParseCorpus(x + "\n" + y) == ParseCorpus(x) + ParseCorpus(y)
  {
    SplitOnAppend(x, y, '\n');
    assert x + "\n" + y == x + ['\n'] + y;
    GatherAppend(SplitOn(x, '\n'), SplitOn(y, '\n'), Contribution);
  }

  /** A text whose every line the filters skip (blank lines, index headers,
      lines with a double space or without a colon) yields no entry. */
  lemma SkippedLinesYieldNothing(text: string)
    requires forall k :: 0 <= k < |SplitOn(text, '\n')| ==> Skipped(Strip(SplitOn(text, '\n')[k]))
    ensures ParseCorpus(text) == []
  {
    GatherNothing(SplitOn(text, '\n'), Contribution);
  }

  /** When a line starts with move text and a colon followed by more text,
      pattern 1 or 2 decides it: the moves come from before the first colon
      whatever patterns 3 and 4 would have said. */
  lemma MovesFirstWins(line: string, k: nat)
    requires LineInput(line) && MovesHead(line) == Some(k)
    requires SkipSpace(line, k + 1) < |line|
    ensures Cascade(line).Some?
    ensures Cascade(line).value.moves == Strip(line[..k])
  {
  }

  /** Pattern 1 is tried before pattern 2 (openings_db.py:73-78): when the
      text after the colon ends in a parenthetical group, the name stops
      before that group. */
  lemma NameBeforeGroup(line: string, k: nat, p: nat)
    requires LineInput(line) && MovesHead(line) == Some(k)
    requires SkipSpace(line, k + 1) < |line|
    requires FirstTrailingGroup(line, SkipSpace(line, k + 1) + 1) == Some(p)
    ensures Cascade(line) == Some(Groups(Strip(line[..k]), Strip(line[SkipSpace(line, k + 1)..p])))
  {
    var j := SkipSpace(line, k + 1);
    NameStopsAtGroup(line, k, j, p);
    Pattern1Reads(line, k, GroupText(line, j, p));
    assert line[0..k] == line[..k];
  }

  /** When no parenthetical group can close the line after the colon,
      pattern 1 fails and pattern 2 makes all the text after the colon the
      name. */
  lemma NameWithoutGroup(line: string, k: nat)
    requires LineInput(line) && MovesHead(line) == Some(k)
    requires SkipSpace(line, k + 1) < |line|
    requires forall q :: SkipSpace(line, k + 1) <= q ==> !OpensTrailingGroup(line, q)
    ensures Cascade(line) == Some(Groups(Strip(line[..k]), Strip(line[SkipSpace(line, k + 1)..])))
  {
    var j := SkipSpace(line, k + 1);
    assert Pattern1(line) == None by { NoTrailingGroup(line, k); }
    assert Pattern2(line) == Some(Groups(GroupText(line, 0, k), GroupText(line, j, |line|))) by {
      Pattern2Reads(line, k);
    }
    assert GroupText(line, 0, k) == Strip(line[..k]) by { assert line[0..k] == line[..k]; }
    assert GroupText(line, j, |line|) == Strip(line[j..]) by { assert line[j..|line|] == line[j..]; }
  }

  /** Such a line opens no trailing group anywhere, so pattern 1 fails. */
  lemma NoTrailingGroup(line: string, k: nat)
    requires LineInput(line) && MovesHead(line) == Some(k)
    requires SkipSpace(line, k + 1) < |line|
    requires forall q :: SkipSpace(line, k + 1) <= q ==> !OpensTrailingGroup(line, q)
    ensures Pattern1(line) == None
  {
    forall q ensures !OpensTrailingGroup(line, q) {
      if 0 <= q < SkipSpace(line, k + 1) { NoGroupBeforeName(line, k, q); }
    }
  }

  /** No `(` stands before the name: the moves, the colon and the spaces
      after it hold none. */
  lemma NoGroupBeforeName(line: string, k: nat, q: nat)
    requires LineInput(line) && MovesHead(line) == Some(k)
    requires q < SkipSpace(line, k + 1)
    ensures line[q] != '('
  {
    if q < k {
      assert line[q] == line[..k][q];
    }
  }

  // ---------------------------------------------------------------------
  // Lines the loader stores

  /** Move text that can stand before the colon of a stored line: a digit
      1-9 and at least one more move character, no whitespace at either
      end, no double space, no newline, and a non-empty key. */
  predicate EntryMoves(m: string) {
    && MoveText(m) && |m| >= 2 && Stripped(m)
    && !Contains(m, "  ") && '\n' !in m && Normalize(m) != ""
  }

  /** Text that can follow the colon and its space on a stored line:
      non-empty, no whitespace at either end, no double space, no newline. */
  predicate EntryText(t: string) {
    t != "" && Stripped(t) && !Contains(t, "  ") && '\n' !in t
  }

  /** Two texts without a double space make none when joined, unless a
      space ends the first and another starts the second. */
  lemma NoDoubleSpaceJoin(a: string, b: string)
    requires !Contains(a, "  ") && !Contains(b, "  ")
    requires |a| > 0 && |b| > 0 ==> a[|a| - 1] != ' ' || b[0] != ' '
    ensures !Contains(a + b, "  ")
  {
    var s := a + b;
    forall i | 0 <= i <= |s| - 2 ensures !OccursAt(s, "  ", i) {
      if i + 2 <= |a| {
        assert s[i..i + 2] == a[i..i + 2];
        assert !OccursAt(a, "  ", i);
      } else if i >= |a| {
        assert s[i..i + 2] == b[i - |a|..i - |a| + 2];
        assert !OccursAt(b, "  ", i - |a|);
      } else {
        assert i == |a| - 1 && s[i] == a[|a| - 1] && s[i + 1] == b[0];
        assert s[i..i + 2] != "  ";
      }
    }
  }

  /** A line of move text, a colon, a space and more text passes the
      filters: it is its own strip, holds a colon, is no index header and
      has no double space. */
  lemma EntryLineKept(m: string, t: string)
    requires EntryMoves(m) && EntryText(t)
    ensures var line := m + ": " + t;
      LineInput(line) && Strip(line) == line && !Skipped(line)
  {
    var line := m + ": " + t;
    assert line[0] == m[0] && line[|line| - 1] == t[|t| - 1];
    assert line[|m|] == ':';
    StrippedIsFixed(line);
    assert !Contains(": ", "  ") by {
      assert !OccursAt(": ", "  ", 0) by { assert ": "[0] != "  "[0]; }
    }
    NoDoubleSpaceJoin(m, ": ");
    NoDoubleSpaceJoin(m + ": ", t);
  }

  /** On such a line the moves head ends at the colon, the name starts
      after the space, and the moves group is the move text itself. */
  lemma EntryLineHead(m: string, t: string)
    requires EntryMoves(m) && EntryText(t)
    ensures var line := m + ": " + t;
      && LineInput(line) && MovesHead(line) == Some(|m|)
      && SkipSpace(line, |m| + 1) == |m| + 2 && GroupText(line, 0, |m|) == m
  {
    var line := m + ": " + t;
    EntryLineKept(m, t);
    forall q | 0 <= q < |m| ensures line[q] != ':' && IsMoveChar(line[q]) {
      assert line[q] == m[q];
    }
    IndexOfFirst(line, ':', 0, |m|);
    AllMoveCharsMeans(line, 1, |m|);
    assert line[|m| + 1] == ' ' && line[|m| + 2] == t[0];
    assert SkipSpace(line, |m| + 2) == |m| + 2;
    assert line[0..|m|] == m;
    StrippedIsFixed(m);
  }

  /** Past the colon and its space, the line opens a trailing group
      exactly where the text there does. */
  lemma OpensInText(m: string, t: string, q: int)
    requires q >= |m| + 2
    ensures OpensTrailingGroup(m + ": " + t, q) <==> OpensTrailingGroup(t, q - |m| - 2)
  {
    var line, o := m + ": " + t, |m| + 2;
    if q - o < |t| {
      assert line[q] == t[q - o];
      assert line[|line| - 1] == t[|t| - 1];
      forall r | q - o < r < |t| - 1 ensures t[r] == line[r + o] { }
    }
  }

  /** A line of move text, a colon, a space and a name with no trailing
      parenthetical is stored by pattern 2: the name is kept whole and the
      key is the normalised move text. */
  lemma ParsePlainLine(m: string, n: string)
    requires EntryMoves(m) && EntryText(n)
    requires forall p :: !OpensTrailingGroup(n, p)
    ensures ParseLine(m + ": " + n) == Some(Entry(Normalize(m), n, m))
  {
    EntryLineKept(m, n);
    PlainLineCascade(m, n);
    ParseLineStores(m + ": " + n, Groups(m, n));
  }

  /** Pattern 2 reads such a line as the move text and the name. */
  lemma PlainLineCascade(m: string, n: string)
    requires EntryMoves(m) && EntryText(n)
    requires forall p :: !OpensTrailingGroup(n, p)
    ensures LineInput(m + ": " + n) && Cascade(m + ": " + n) == Some(Groups(m, n))
  {
    var line := m + ": " + n;
    assert LineInput(line) && MovesHead(line) == Some(|m|) && SkipSpace(line, |m| + 1) == |m| + 2 by {
      EntryLineHead(m, n);
    }
    var j := SkipSpace(line, |m| + 1);
    assert forall q :: j <= q ==> !OpensTrailingGroup(line, q) by {
      forall q | j <= q ensures !OpensTrailingGroup(line, q) {
        OpensInText(m, n, q);
      }
    }
    PlainLineTexts(m, n, j);
    NameWithoutGroup(line, |m|);
  }

  /** In such a line the text before the colon strips to the move text and
      the text after its space strips to the name. */
  lemma PlainLineTexts(m: string, n: string, j: nat)
    requires EntryMoves(m) && EntryText(n) && j == |m| + 2
    ensures Strip((m + ": " + n)[..|m|]) == m && Strip((m + ": " + n)[j..]) == n
  {
    var line := m + ": " + n;
    MovesBeforeColon(m, n);
    StrippedIsFixed(m);
    AfterColon(m, n);
    SliceAfterColon(line, |m| + 2, n, 0, |n|, j, |line|);
    assert line[j..] == line[j..|line|] && n[0..|n|] == n;
    StrippedIsFixed(n);
  }

  /** The same line followed by a space and a parenthetical is stored by
      pattern 1, and the parenthetical stays out of the name. The name may
      hold parentheses of its own as long as each `(` in it is closed
      within it. */
  lemma ParseLineWithGroup(m: string, n: string, x: string)
    requires EntryMoves(m) && EntryText(n)
    requires forall q :: 0 <= q < |n| && n[q] == '(' ==> ')' in n[q + 1..]
    requires x != "" && ')' !in x && '\n' !in x && !Contains(x, "  ")
    ensures ParseLine(m + ": " + (n + " (" + x + ")")) == Some(Entry(Normalize(m), n, m))
  {
    var t := n + " (" + x + ")";
    GroupTextIsEntryText(n, x);
    EntryLineKept(m, t);
    GroupLineCascade(m, n, x);
    ParseLineStores(m + ": " + t, Groups(m, n));
  }

  /** Pattern 1 reads such a line as the move text and the name. */
  lemma GroupLineCascade(m: string, n: string, x: string)
    requires EntryMoves(m) && EntryText(n)
    requires forall q :: 0 <= q < |n| && n[q] == '(' ==> ')' in n[q + 1..]
    requires x != "" && ')' !in x && '\n' !in x && !Contains(x, "  ")
    ensures var line := m + ": " + (n + " (" + x + ")");
      LineInput(line) && Cascade(line) == Some(Groups(m, n))
  {
    var line := m + ": " + (n + " (" + x + ")");
    var j, p := |m| + 2, |m| + 3 + |n|;
    GroupLineHead(m, n, x, j, p);
    GroupLineTexts(m, n, x, j, p);
    CascadeBeforeGroup(line, |m|, j, p, m, n);
  }

  /** The pattern-1 reading of a line, given its stripped groups. */
  lemma CascadeBeforeGroup(line: string, k: nat, j: nat, p: nat, moves: string, name: string)
    requires LineInput(line) && MovesHead(line) == Some(k)
    requires j == SkipSpace(line, k + 1) < |line|
    requires FirstTrailingGroup(line, j + 1) == Some(p)
    requires Strip(line[..k]) == moves && Strip(line[j..p]) == name
    ensures Cascade(line) == Some(Groups(moves, name))
  {
    NameBeforeGroup(line, k, p);
  }

  /** Such a line has its moves head at the colon, its name right after the
      space at `j`, and its first trailing group after the name's first
      character at the parenthetical, at `p`. */
  lemma GroupLineHead(m: string, n: string, x: string, j: nat, p: nat)
    requires EntryMoves(m) && EntryText(n)
    requires forall q :: 0 <= q < |n| && n[q] == '(' ==> ')' in n[q + 1..]
    requires x != "" && ')' !in x && '\n' !in x && !Contains(x, "  ")
    requires j == |m| + 2 && p == |m| + 3 + |n|
    ensures var line := m + ": " + (n + " (" + x + ")");
      && LineInput(line) && MovesHead(line) == Some(|m|) && j == SkipSpace(line, |m| + 1) < |line|
      && FirstTrailingGroup(line, j + 1) == Some(p)
  {
    var t := n + " (" + x + ")";
    var line := m + ": " + t;
    assert LineInput(line) && MovesHead(line) == Some(|m|) && SkipSpace(line, |m| + 1) == |m| + 2 by {
      GroupTextIsEntryText(n, x);
      EntryLineHead(m, t);
    }
    GroupLineFirst(m, n, x, j + 1, p);
  }

  /** Searching such a line from the name's second character finds the
      parenthetical. */
  lemma GroupLineFirst(m: string, n: string, x: string, a: nat, b: nat)
    requires forall q :: 0 <= q < |n| && n[q] == '(' ==> ')' in n[q + 1..]
    requires x != "" && ')' !in x && a == |m| + 3 && b == |m| + 3 + |n|
    ensures FirstTrailingGroup(m + ": " + (n + " (" + x + ")"), a) == Some(b)
  {
    var t := n + " (" + x + ")";
    GroupOpensAfterName(n, x);
    AfterColon(m, t);
    FirstTrailingGroupMoves(m + ": " + t, |m| + 2, t, 1, |n| + 1, a, b);
  }

  /** In such a line the text before the colon strips to the move text, and
      the text from the name to the parenthetical strips to the name. */
  lemma GroupLineTexts(m: string, n: string, x: string, j: nat, p: nat)
    requires EntryMoves(m) && EntryText(n) && j == |m| + 2 && p == |m| + 3 + |n|
    ensures var line := m + ": " + (n + " (" + x + ")");
      Strip(line[..|m|]) == m && Strip(line[j..p]) == n
  {
    var t := n + " (" + x + ")";
    var line := m + ": " + t;
    MovesBeforeColon(m, t);
    StrippedIsFixed(m);
    AfterColon(m, t);
    SliceAfterColon(line, |m| + 2, t, 0, |n| + 1, j, p);
    NameBeforeParenthetical(n, x);
    NameThenSpace(n);
  }

  /** Before the colon, the line is the move text. */
  lemma MovesBeforeColon(m: string, t: string)
    ensures (m + ": " + t)[..|m|] == m
  {
  }

  /** A slice of the line past index `o` is the matching slice of the text
      it continues with. */
  lemma SliceAfterColon(line: string, o: nat, t: string, a: nat, b: nat, i: nat, k: nat)
    requires ContinuesWith(line, o, t) && a <= b <= |t|
    requires i == o + a && k == o + b
    ensures line[i..k] == t[a..b]
  {
    forall r | 0 <= r < b - a ensures line[i..k][r] == t[a..b][r] {
      assert line[i + r] == t[i + r - o];
    }
  }

  /** Up to the opening parenthesis, the text after the colon is the name
      and one space. */
  lemma NameBeforeParenthetical(n: string, x: string)
    ensures (n + " (" + x + ")")[0..|n| + 1] == n + " "
  {
    var t := n + " (" + x + ")";
    forall i | 0 <= i < |n| + 1 ensures t[i] == (n + " ")[i] {
      if i < |n| { assert t[i] == n[i]; } else { assert t[i] == ' '; }
    }
  }

  /** Stripping a name followed by one space gives the name back. */
  lemma NameThenSpace(n: string)
    requires EntryText(n)
    ensures Strip(n + " ") == n
  {
    var s := n + " ";
    assert s[0] == n[0] && s[|n| - 1] == n[|n| - 1] && s[|n|] == ' ';
    StripExact(s, 0, |n|);
    assert s[0..|n|] == n;
  }

  /** The name, a space and a parenthetical form text fit to follow the
      colon. */
  lemma GroupTextIsEntryText(n: string, x: string)
    requires EntryText(n)
    requires x != "" && ')' !in x && '\n' !in x && !Contains(x, "  ")
    ensures EntryText(n + " (" + x + ")")
  {
    var t := n + " (" + x + ")";
    assert t[0] == n[0] && t[|t| - 1] == ')';
    assert !Contains(" (", "  ") by {
      assert !OccursAt(" (", "  ", 0) by { assert " ("[1] != "  "[1]; }
    }
    assert !Contains(")", "  ");
    NoDoubleSpaceJoin(n, " (");
    NoDoubleSpaceJoin(n + " (", x);
    NoDoubleSpaceJoin(n + " (" + x, ")");
  }

  /** After the name's first character, the first trailing group of the
      name, a space and a parenthetical is the parenthetical. */
  lemma GroupOpensAfterName(n: string, x: string)
    requires forall q :: 0 <= q < |n| && n[q] == '(' ==> ')' in n[q + 1..]
    requires x != "" && ')' !in x
    ensures FirstTrailingGroup(n + " (" + x + ")", 1) == Some(|n| + 1)
  {
    GroupClosesText(n, x);
    FirstTrailingGroupAt(n + " (" + x + ")", 1, |n| + 1);
  }

  /** Past the colon and its space, the line is the text there. */
  lemma AfterColon(m: string, t: string)
    ensures ContinuesWith(m + ": " + t, |m| + 2, t)
  {
  }

  /** In the name, a space and a parenthetical, the only trailing group
      opens at the parenthetical: every `(` of the name is closed in it. */
  lemma GroupClosesText(n: string, x: string)
    requires forall q :: 0 <= q < |n| && n[q] == '(' ==> ')' in n[q + 1..]
    requires x != "" && ')' !in x
    ensures var t := n + " (" + x + ")";
      && OpensTrailingGroup(t, |n| + 1)
      && forall q :: 0 <= q < |n| + 1 ==> !OpensTrailingGroup(t, q)
  {
    var t := n + " (" + x + ")";
    var p := |n| + 1;
    assert t[p] == '(' && t[|t| - 1] == ')';
    forall r | p < r < |t| - 1 ensures t[r] != ')' {
      assert t[r] == x[r - p - 1];
    }
    forall q | 0 <= q < p ensures !OpensTrailingGroup(t, q) {
      if q < |n| {
        assert t[q] == n[q];
        if n[q] == '(' {
          var i :| 0 <= i < |n[q + 1..]| && n[q + 1..][i] == ')';
          assert t[q + 1 + i] == n[q + 1 + i];
        }
      } else {
        assert t[q] == ' ';
      }
    }
  }

  // ---------------------------------------------------------------------
  // Name-first lines

  /** A name that can open a stored name-first line: text fit to follow a
      colon, with no colon of its own, not starting with a digit 1-9 (that
      would make it move text for patterns 1 and 2) and no index header. */
  predicate NameFirstText(n: string) {
    EntryText(n) && ':' !in n && !IsNonZeroDigit(n[0]) && !IsHeader(n)
  }

  /** A name, a colon, a space and move text is stored by pattern 4: the
      key is the normalised move text and the name is kept whole. */
  lemma ParseNameFirstLine(n: string, m: string)
    requires NameFirstText(n) && EntryMoves(m)
    ensures ParseLine(n + ": " + m) == Some(Entry(Normalize(m), n, m))
  {
    EntryMovesText(m);
    NameLineKept(n, m);
    NameFirstPlainCascade(n, m);
    ParseLineStores(n + ": " + m, Groups(m, n));
  }

  /** The same line followed by a space and a parenthetical, such as an
      ECO code, is stored by pattern 3 as the same entry: the
      parenthetical is dropped. */
  lemma ParseNameFirstWithCode(n: string, m: string, x: string)
    requires NameFirstText(n) && EntryMoves(m)
    requires x != "" && ')' !in x && '\n' !in x && !Contains(x, "  ")
    ensures ParseLine(n + ": " + (m + " (" + x + ")")) == Some(Entry(Normalize(m), n, m))
  {
    var t := m + " (" + x + ")";
    EntryMovesText(m);
    GroupTextIsEntryText(m, x);
    NameLineKept(n, t);
    NameFirstGroupCascade(n, m, x);
    ParseLineStores(n + ": " + t, Groups(m, n));
  }

  /** Pattern 4 reads a name-first line as the move text and the name. */
  lemma NameFirstPlainCascade(n: string, m: string)
    requires NameFirstText(n) && EntryMoves(m)
    ensures LineInput(n + ": " + m) && Cascade(n + ": " + m) == Some(Groups(m, n))
  {
    var line := n + ": " + m;
    var c, j := |n|, |n| + 2;
    EntryMovesText(m);
    NameLineHead(n, m, c, j);
    PlainMovesAfterColon(n, m, c, j);
    Pattern4Reads(line, c, j);
    NameFirstCascade(line);
  }

  /** Pattern 3 reads a name-first line with a parenthetical as the move
      text and the name. */
  lemma NameFirstGroupCascade(n: string, m: string, x: string)
    requires NameFirstText(n) && EntryMoves(m)
    requires x != "" && ')' !in x && '\n' !in x && !Contains(x, "  ")
    ensures var line := n + ": " + (m + " (" + x + ")");
      LineInput(line) && Cascade(line) == Some(Groups(m, n))
  {
    var t := m + " (" + x + ")";
    var line := n + ": " + t;
    var c, j, e := |n|, |n| + 2, |n| + 3 + |m|;
    EntryMovesText(m);
    GroupTextIsEntryText(m, x);
    NameLineHead(n, t, c, j);
    GroupMovesAfterColon(n, m, x, c, j, e);
    Pattern3Reads(line, c, j, e);
    NameFirstCascade(line);
  }

  /** Move text fit for a stored line is also text fit to follow a colon. */
  lemma EntryMovesText(m: string)
    requires EntryMoves(m)
    ensures EntryText(m)
  {
  }

  /** A line of a name, a colon, a space and more text passes the filters. */
  lemma NameLineKept(n: string, t: string)
    requires NameFirstText(n) && EntryText(t)
    ensures var line := n + ": " + t;
      LineInput(line) && Strip(line) == line && !Skipped(line)
  {
    var line := n + ": " + t;
    assert line[0] == n[0] && line[|line| - 1] == t[|t| - 1];
    assert line[|n|] == ':';
    if |n| >= 2 {
      assert line[1] == n[1];
    } else {
      assert line[1] == ':';
    }
    StrippedIsFixed(line);
    assert !Contains(": ", "  ") by {
      assert !OccursAt(": ", "  ", 0) by { assert ": "[0] != "  "[0]; }
    }
    NoDoubleSpaceJoin(n, ": ");
    NoDoubleSpaceJoin(n + ": ", t);
  }

  /** On such a line the first colon ends the name at `c`, the text after
      it starts at `j`, and the name group is the name itself. */
  lemma NameLineHead(n: string, t: string, c: nat, j: nat)
    requires NameFirstText(n) && EntryText(t) && c == |n| && j == |n| + 2
    ensures var line := n + ": " + t;
      && LineInput(line) && line != "" && !IsNonZeroDigit(line[0])
      && line[c] == ':' && (forall q :: 0 <= q < c ==> line[q] != ':')
      && j == SkipSpace(line, c + 1) && GroupText(line, 0, c) == n
      && ContinuesWith(line, j, t)
  {
    var line := n + ": " + t;
    NameLineKept(n, t);
    forall q | 0 <= q < c ensures line[q] != ':' {
      assert line[q] == n[q];
    }
    assert line[c + 1] == ' ' && line[j] == t[0];
    assert SkipSpace(line, j) == j;
    assert line[0..c] == n;
    StrippedIsFixed(n);
    AfterColon(n, t);
  }

  /** Move text after the colon runs to the end of the line. */
  lemma PlainMovesAfterColon(n: string, m: string, c: nat, j: nat)
    requires NameFirstText(n) && EntryMoves(m) && c == |n| && j == |n| + 2
    requires var line := n + ": " + m;
      line[c] == ':' && (forall q :: 0 <= q < c ==> line[q] != ':')
      && j == SkipSpace(line, c + 1) && ContinuesWith(line, j, m)
    ensures var line := n + ": " + m;
      MovesAfterColon(line, c, j, |line|) && GroupText(line, j, |line|) == m
  {
    var line := n + ": " + m;
    assert line[j] == m[0];
    forall q | j < q < |line| ensures IsMoveChar(line[q]) {
      assert line[q] == m[q - j];
    }
    SliceAfterColon(line, j, m, 0, |m|, j, |line|);
    assert m[0..|m|] == m;
    StrippedIsFixed(m);
  }

  /** Move text after the colon stops, after one space, at the
      parenthetical that closes the line. */
  lemma GroupMovesAfterColon(n: string, m: string, x: string, c: nat, j: nat, e: nat)
    requires NameFirstText(n) && EntryMoves(m) && c == |n| && j == |n| + 2 && e == |n| + 3 + |m|
    requires x != "" && ')' !in x
    requires var line := n + ": " + (m + " (" + x + ")");
      line[c] == ':' && (forall q :: 0 <= q < c ==> line[q] != ':')
      && j == SkipSpace(line, c + 1) && ContinuesWith(line, j, m + " (" + x + ")")
    ensures var line := n + ": " + (m + " (" + x + ")");
      MovesAfterColon(line, c, j, e) && OpensTrailingGroup(line, e) && GroupText(line, j, e) == m
  {
    var t := m + " (" + x + ")";
    var line := n + ": " + t;
    MovesBeforeParenthetical(line, m, x, j, e);
    assert MovesAfterColon(line, c, j, e);
    GroupClosesText(m, x);
    OpensShift(line, j, t, |m| + 1);
    MovesGroupBeforeParenthetical(line, m, x, j, e);
  }

  /** From `j`, the line holds the move text, a space, and then the
      parenthetical's `(` at `e`. */
  lemma MovesBeforeParenthetical(line: string, m: string, x: string, j: nat, e: nat)
    requires EntryMoves(m) && ContinuesWith(line, j, m + " (" + x + ")") && e == j + |m| + 1
    ensures IsNonZeroDigit(line[j]) && line[e] == '(' && !IsMoveChar(line[e])
    ensures forall q :: j < q < e ==> IsMoveChar(line[q])
  {
    var t := m + " (" + x + ")";
    assert line[j] == t[0] == m[0];
    forall q | j < q < e ensures IsMoveChar(line[q]) {
      assert line[q] == t[q - j];
      if q - j < |m| { assert t[q - j] == m[q - j]; } else { assert t[q - j] == ' '; }
    }
    assert line[e] == t[|m| + 1];
  }

  /** The move group up to the parenthetical strips to the move text. */
  lemma MovesGroupBeforeParenthetical(line: string, m: string, x: string, j: nat, e: nat)
    requires EntryMoves(m) && ContinuesWith(line, j, m + " (" + x + ")") && e == j + |m| + 1
    ensures GroupText(line, j, e) == m
  {
    var t := m + " (" + x + ")";
    SliceAfterColon(line, j, t, 0, |m| + 1, j, e);
    NameBeforeParenthetical(m, x);
    EntryMovesText(m);
    NameThenSpace(m);
  }

  /** `1.e4 c5: Sicilian Defense` is read by pattern 2 as the Sicilian entry. */
  lemma SicilianLine(raw: string)
    requires raw == "1.e4 c5: Sicilian Defense"
    ensures ParseLine(raw) == Some(Entry("e4 c5", "Sicilian Defense", "1.e4 c5"))
  {
    SicilianKept(raw);
    SicilianGroups(raw);
    FallbackKey3();
  }

  lemma SicilianKept(raw: string)
    requires raw == "1.e4 c5: Sicilian Defense"
    ensures Strip(raw) == raw && LineInput(raw) && !Skipped(raw)
  {
    SicilianStripped(raw);
    SicilianSingleSpaced(raw);
    assert raw[7] == ':';
  }

  lemma SicilianStripped(raw: string)
    requires raw == "1.e4 c5: Sicilian Defense"
    ensures Strip(raw) == raw && LineInput(raw) && !IsHeader(raw)
  {
    SicilianLineInput(raw);
    StrippedIsFixed(raw);
    assert raw[1] == '.';
  }

  lemma SicilianLineInput(raw: string)
    requires raw == "1.e4 c5: Sicilian Defense"
    ensures LineInput(raw)
  {
    assert raw[0] == '1' && raw[|raw| - 1] == 'e';
    forall k | 0 <= k < |raw| ensures raw[k] != '\n' {
    }
  }

  lemma SicilianSingleSpaced(raw: string)
    requires raw == "1.e4 c5: Sicilian Defense"
    ensures !Contains(raw, "  ")
  {
    forall i | 0 <= i <= |raw| - 2 ensures !OccursAt(raw, "  ", i) {
      assert raw[i] != ' ' || raw[i + 1] != ' ';
      assert raw[i..i + 2][0] == raw[i] && raw[i..i + 2][1] == raw[i + 1];
    }
  }

  lemma SicilianGroups(raw: string)
    requires raw == "1.e4 c5: Sicilian Defense"
    ensures LineInput(raw)
    ensures Cascade(raw) == Some(Groups("1.e4 c5", "Sicilian Defense"))
  {
    SicilianStripped(raw);
    SicilianPattern2(raw);
    SicilianNoPattern1(raw);
  }

  lemma SicilianNoPattern1(raw: string)
    requires raw == "1.e4 c5: Sicilian Defense"
    ensures LineInput(raw) && Pattern1(raw) == None
  {
    SicilianStripped(raw);
    SicilianHead(raw);
    assert raw[|raw| - 1] == 'e';
  }

  lemma SicilianPattern2(raw: string)
    requires raw == "1.e4 c5: Sicilian Defense"
    ensures LineInput(raw) && Pattern2(raw) == Some(Groups("1.e4 c5", "Sicilian Defense"))
  {
    SicilianLineInput(raw);
    SicilianHead(raw);
    SicilianNameStart(raw);
    SicilianGroupTexts(raw);
  }

  lemma SicilianNameStart(raw: string)
    requires raw == "1.e4 c5: Sicilian Defense"
    ensures SkipSpace(raw, 8) == 9 < |raw|
  {
    assert raw[8] == ' ' && raw[9] == 'S';
  }

  lemma SicilianGroupTexts(raw: string)
    requires raw == "1.e4 c5: Sicilian Defense"
    ensures GroupText(raw, 0, 7) == "1.e4 c5" && GroupText(raw, 9, 25) == "Sicilian Defense"
  {
    SicilianMoveText(raw);
    SicilianNameText(raw);
  }

  lemma SicilianMoveText(raw: string)
    requires raw == "1.e4 c5: Sicilian Defense"
    ensures GroupText(raw, 0, 7) == "1.e4 c5"
  {
    assert raw[..7] == "1.e4 c5";
    StripExact(raw[..7], 0, 7);
  }

  lemma SicilianNameText(raw: string)
    requires raw == "1.e4 c5: Sicilian Defense"
    ensures GroupText(raw, 9, 25) == "Sicilian Defense"
  {
    assert raw[9..25] == "Sicilian Defense";
    StripExact(raw[9..25], 0, 16);
  }

  lemma SicilianHead(raw: string)
    requires raw == "1.e4 c5: Sicilian Defense"
    ensures MovesHead(raw) == Some(7)
  {
    IndexOfFirst(raw, ':', 0, 7);
    AllMoveCharsMeans(raw, 1, 7);
  }

  // ---------------------------------------------------------------------
  // Resolving

  /** At most one entry is the best: the scan's answer is determined by the
      longest-key, earliest-entry rule. */
  lemma BestIsUnique(corpus: seq<Entry>, played: string, i: int, j: int, n: int)
    requires IsBestAmong(corpus, played, i, n) && IsBestAmong(corpus, played, j, n)
    ensures i == j
  {
  }

  /** On the fallback table the Giuoco Piano moves resolve to the longer
      Giuoco Piano entry, not to the Italian Game entry that also matches. */
  lemma GiuocoPiano(sans: seq<string>)
    requires sans == ["e4", "e5", "Nf3", "Nc6", "Bc4", "Bc5"]
    ensures Resolve(Fallback, sans) == ("Italian Game, Giuoco Piano", "1.e4 e5 2.Nf3 Nc6 3.Bc4 Bc5")
  {
    var played := JoinWith(sans, " ");
    GiuocoPlayed(sans);
    GiuocoBest(played);
    FallbackEntries();
    var r := Resolve(Fallback, sans);
    var i :| IsBestAmong(Fallback, played, i, |Fallback|) && r == (Fallback[i].name, Fallback[i].line);
    BestIsUnique(Fallback, played, i, 1, |Fallback|);
  }

  lemma GiuocoPlayed(sans: seq<string>)
    requires sans == ["e4", "e5", "Nf3", "Nc6", "Bc4", "Bc5"]
    ensures JoinWith(sans, " ") == "e4 e5 Nf3 Nc6 Bc4 Bc5"
  {
    var t4 := ["Bc4", "Bc5"];
    JoinCons("Bc4", ["Bc5"]);
    var t3 := ["Nc6"] + t4;
    JoinCons("Nc6", t4);
    var t2 := ["Nf3"] + t3;
    JoinCons("Nf3", t3);
    var t1 := ["e5"] + t2;
    JoinCons("e5", t2);
    JoinCons("e4", t1);
    assert sans == ["e4"] + t1;
    assert "e4" + " " + ("e5" + " " + ("Nf3" + " " + ("Nc6" + " " + ("Bc4" + " " + "Bc5")))) == "e4 e5 Nf3 Nc6 Bc4 Bc5";
  }

  /** Both Italian entries match the Giuoco Piano moves; the second has the
      longer key, and no entry's key is longer still. */
  lemma GiuocoBest(played: string)
    requires played == "e4 e5 Nf3 Nc6 Bc4 Bc5"
    ensures IsBestAmong(Fallback, played, 1, |Fallback|)
  {
    FallbackEntries();
    assert |Fallback[0].moves| == 17;
  }
}
