/** The opening corpus: parsing the text of `Openings.txt` into entries
    (openings_db.py:6-109) and resolving a game's moves to the entry with
    the longest matching move key (openings_db.py:111-127). */
module Openings {
  import opened Outcomes
  import opened Chars
  import opened Strings
  import opened Spacing

  /** One corpus entry: the normalised move key (`"e4 c5"`), the opening
      name and the move text as written in the file (`"1.e4 c5"`). */
  datatype Entry = Entry(moves: string, name: string, line: string)

  // ---------------------------------------------------------------------
  // Line filters

  /** Index-header lines: a capital `A` to `E` followed by a space. */
  predicate IsHeader(line: string) {
    |line| >= 2 && line[1] == ' ' && line[0] in {'A', 'B', 'C', 'D', 'E'}
  }

  /** Stripped lines the loader skips before trying any pattern: blank
      lines, index headers, lines with a double space, lines without `:`. */
  predicate Skipped(line: string) {
    line == "" || IsHeader(line) || Contains(line, "  ") || ':' !in line
  }

  // ---------------------------------------------------------------------
  // The four patterns. Each works on a stripped line without a newline,
  // which is what the loader gives them.

  predicate LineInput(line: string) {
    Stripped(line) && '\n' !in line
  }

  /** The class `[\w\s\d\-\+\=\.]` of move-text characters. It contains
      neither `:` nor parentheses. */
  predicate IsMoveChar(c: char) {
    IsWordChar(c) || IsSpace(c) || c == '-' || c == '+' || c == '=' || c == '.'
  }

  predicate AllMoveChars(s: string, i: nat, j: nat)
    requires i <= j <= |s|
    decreases j - i
  {
    i == j || (IsMoveChar(s[i]) && AllMoveChars(s, i + 1, j))
  }

  lemma AllMoveCharsMeans(s: string, i: nat, j: nat)
    requires i <= j <= |s|
    ensures AllMoveChars(s, i, j) <==> forall q :: i <= q < j ==> IsMoveChar(s[q])
    decreases j - i
  {
    if i < j { AllMoveCharsMeans(s, i + 1, j); }
  }

  /** Index of the first character at or after `i` that is not a move
      character (or `|s|`). */
  function MoveRunEnd(s: string, i: nat): (r: nat)
    requires i <= |s|
    ensures i <= r <= |s|
    ensures forall q :: i <= q < r ==> IsMoveChar(s[q])
    ensures r < |s| ==> !IsMoveChar(s[r])
    decreases |s| - i
  {
    if i == |s| || !IsMoveChar(s[i]) then i else MoveRunEnd(s, i + 1)
  }

  /** `\(([^)]+)\)$` can match from index `p`: an opening parenthesis, at
      least one character, none of them `)`, and `)` as the last
      character of the line. */
  predicate OpensTrailingGroup(line: string, p: int) {
    && 0 <= p && p + 2 < |line|
    && line[p] == '(' && line[|line| - 1] == ')'
    && forall q :: p < q < |line| - 1 ==> line[q] != ')'
  }

  /** The least `q >= p` from which the trailing group can match. */
  function FirstTrailingGroup(line: string, p: nat): (r: Option<nat>)
    ensures r.Some? ==> p <= r.value && OpensTrailingGroup(line, r.value)
    ensures r.Some? ==> forall q :: p <= q < r.value ==> !OpensTrailingGroup(line, q)
    ensures r.None? ==> forall q :: p <= q ==> !OpensTrailingGroup(line, q)
    decreases |line| - p
  {
    if p >= |line| then None
    else if OpensTrailingGroup(line, p) then Some(p)
    else FirstTrailingGroup(line, p + 1)
  }

  /** The search finds an opening that no earlier index offers. */
  lemma {:induction false} FirstTrailingGroupAt(line: string, p: nat, q: nat)
    requires p <= q && OpensTrailingGroup(line, q)
    requires forall r :: p <= r < q ==> !OpensTrailingGroup(line, r)
    ensures FirstTrailingGroup(line, p) == Some(q)
    decreases q - p
  {
    if p < q { FirstTrailingGroupAt(line, p + 1, q); }
  }

  /** From index `o` on, `line` is the text `t`. */
  predicate ContinuesWith(line: string, o: nat, t: string) {
    |line| == o + |t| && forall i :: o <= i < |line| ==> line[i] == t[i - o]
  }

  /** A line opens a trailing group where the text it continues with does. */
  lemma OpensShift(line: string, o: nat, t: string, q: nat)
    requires ContinuesWith(line, o, t)
    ensures OpensTrailingGroup(line, o + q) <==> OpensTrailingGroup(t, q)
  {
    if q < |t| {
      assert line[o + q] == t[q] && line[|line| - 1] == t[|t| - 1];
      forall r | q < r < |t| - 1 ensures t[r] == line[o + r] { }
    }
  }

  /** The search for a trailing group moves along with the text. */
  lemma {:induction false} FirstTrailingGroupShift(line: string, o: nat, t: string, p: nat)
    requires ContinuesWith(line, o, t) && p <= |t|
    ensures FirstTrailingGroup(t, p).None? ==> FirstTrailingGroup(line, o + p).None?
    ensures FirstTrailingGroup(t, p).Some? ==> FirstTrailingGroup(line, o + p) == Some(o + FirstTrailingGroup(t, p).value)
    decreases |t| - p
  {
    if p < |t| {
      OpensShift(line, o, t, p);
      FirstTrailingGroupShift(line, o, t, p + 1);
    }
  }

  /** The same, naming the indices where the line's search starts and ends. */
  lemma FirstTrailingGroupMoves(line: string, o: nat, t: string, p: nat, q: nat, a: nat, b: nat)
    requires ContinuesWith(line, o, t) && p <= |t|
    requires FirstTrailingGroup(t, p) == Some(q) && a == o + p && b == o + q
    ensures FirstTrailingGroup(line, a) == Some(b)
  {
    FirstTrailingGroupShift(line, o, t, p);
  }

  /** The two groups a pattern extracts, each already `.strip()`ped. */
  datatype Groups = Groups(moves: string, name: string)

  /** Move text as the patterns capture it: a digit 1-9, then move
      characters only. */
  predicate MoveText(m: string) {
    |m| > 0 && IsNonZeroDigit(m[0]) && forall q :: 0 <= q < |m| ==> IsMoveChar(m[q])
  }

  /** Both groups are pieces of the line. */
  predicate FromLine(line: string, g: Groups) {
    Contains(line, g.moves) && Contains(line, g.name)
  }

  /** `^([1-9][\w\s\d\-\+\=\.]+?):` (the head of patterns 1 and 2): the
      index of the first colon, when the text before it starts with a
      digit 1-9 and consists of at least two move characters. The lazy
      group can only stop at a colon, and cannot pass one. */
  function MovesHead(line: string): (r: Option<nat>)
    ensures r.Some? ==> 2 <= r.value < |line| && line[r.value] == ':'
    ensures r.Some? ==> forall q :: 0 <= q < r.value ==> line[q] != ':'
    ensures r.Some? ==> MoveText(line[..r.value])
  {
    match IndexOf(line, ':', 0)
    case None => None
    case Some(k) =>
      if k >= 2 && IsNonZeroDigit(line[0]) && AllMoveChars(line, 1, k) then
        AllMoveCharsMeans(line, 1, k);
        Some(k)
      else None
  }

  /** Group `s` of `line`, stripped, taken from the slice `line[a..b]`. */
  function GroupText(line: string, a: nat, b: nat): (r: string)
    requires a <= b <= |line|
    ensures Contains(line, r)
  {
    StripOccurs(line[a..b]);
    ContainsSlice(line, a, b, Strip(line[a..b]));
    Strip(line[a..b])
  }

  /** A move group captured from `line[a..b]` is move text. */
  lemma MoveGroup(line: string, a: nat, b: nat)
    requires a < b <= |line| && IsNonZeroDigit(line[a])
    requires forall q :: a < q < b ==> IsMoveChar(line[q])
    ensures MoveText(GroupText(line, a, b))
  {
    var x := line[a..b];
    StripShape(x);
    var i, j :| 0 <= i <= j <= |x| && Strip(x) == x[i..j]
                && (forall k :: 0 <= k < i ==> IsSpace(x[k]))
                && (forall k :: j <= k < |x| ==> IsSpace(x[k]));
    assert x[0] == line[a];
    assert !IsSpace(x[0]);
    assert i == 0 && j > 0;
  }

  /** A group taken from `line[a..b]` lies before index `b`. */
  lemma GroupBefore(line: string, a: nat, b: nat)
    requires a <= b <= |line|
    ensures Contains(line[..b], GroupText(line, a, b))
  {
    StripOccurs(line[a..b]);
    assert line[..b][a..b] == line[a..b];
    ContainsSlice(line[..b], a, b, Strip(line[a..b]));
  }

  /** The name group of pattern 1 once the colon at `k` is passed and `j`
      is the first non-space character after it. The lazy name group ends
      before the first `(` after `j` that opens a trailing group. Failing
      that, a trailing group opening right at `j` still matches when
      whitespace precedes it: `\s*` gives back one whitespace character for
      the name group, which is then blank. */
  function TrailingGroupName(line: string, k: nat, j: nat): (r: Option<string>)
    requires k < j < |line|
    ensures r.Some? ==> Contains(line, r.value)
    ensures r.Some? ==> exists p | 0 <= p <= |line| :: OpensTrailingGroup(line, p) && Contains(line[..p], r.value)
  {
    match FirstTrailingGroup(line, j + 1)
    case Some(p) =>
      GroupBefore(line, j, p);
      Some(GroupText(line, j, p))
    case None =>
      if j > k + 1 && OpensTrailingGroup(line, j) then
        GroupBefore(line, j - 1, j);
        Some(GroupText(line, j - 1, j))
      else None
  }

  /** Pattern 1, `^([1-9]M+?):\s*(.+?)\s*\(([^)]+)\)$` with M the move
      characters: moves, colon, name, trailing parenthetical (discarded). */
  function Pattern1(line: string): (r: Option<Groups>)
    requires LineInput(line)
    ensures r.Some? ==> MoveText(r.value.moves) && FromLine(line, r.value)
    ensures r.Some? ==> exists p | 0 <= p <= |line| :: OpensTrailingGroup(line, p) && Contains(line[..p], r.value.name)
  {
    var h := MovesHead(line);
    if h.None? then None
    else
      var k := h.value;
      var j := SkipSpace(line, k + 1);
      if j == |line| then None
      else
        MoveGroup(line, 0, k);
        var n := TrailingGroupName(line, k, j);
        if n.Some? then Some(Groups(GroupText(line, 0, k), n.value)) else None
  }

  /** When a trailing group opens after the first character of the name,
      the name stops before the earliest such group. */
  lemma NameStopsAtGroup(line: string, k: nat, j: nat, p: nat)
    requires k < j < |line|
    requires FirstTrailingGroup(line, j + 1) == Some(p)
    ensures TrailingGroupName(line, k, j) == Some(GroupText(line, j, p))
  {
  }

  /** Pattern 1 reads the moves before the colon and the name the trailing
      group leaves. */
  lemma Pattern1Reads(line: string, k: nat, n: string)
    requires LineInput(line) && MovesHead(line) == Some(k)
    requires SkipSpace(line, k + 1) < |line|
    requires TrailingGroupName(line, k, SkipSpace(line, k + 1)) == Some(n)
    ensures Pattern1(line) == Some(Groups(GroupText(line, 0, k), n))
  {
    var r := Pattern1(line);
    assert r.Some?;
    assert r.value.moves == GroupText(line, 0, k);
    assert r.value.name == n;
  }

  /** Pattern 2, `^([1-9]M+?):\s*(.+)$`: moves, colon, the rest is the name. */
  function Pattern2(line: string): (r: Option<Groups>)
    requires LineInput(line)
    ensures r.Some? ==> MoveText(r.value.moves) && FromLine(line, r.value)
  {
    var h := MovesHead(line);
    if h.None? then None
    else
      var k := h.value;
      var j := SkipSpace(line, k + 1);
      if j == |line| then None
      else
        MoveGroup(line, 0, k);
        Some(Groups(GroupText(line, 0, k), GroupText(line, j, |line|)))
  }

  /** Pattern 2 reads the moves before the colon and the rest of the line. */
  lemma Pattern2Reads(line: string, k: nat)
    requires LineInput(line) && MovesHead(line) == Some(k)
    requires SkipSpace(line, k + 1) < |line|
    ensures Pattern2(line) == Some(Groups(GroupText(line, 0, k), GroupText(line, SkipSpace(line, k + 1), |line|)))
  {
  }

  /** Pattern 3 tried with the lazy name group ending at the colon at `c`:
      `:\s*([1-9]M+?)\s*\(([^)]+)\)$`. The move group runs over move
      characters up to an opening parenthesis, which must open the
      trailing group. */
  function Pattern3At(line: string, c: nat): (r: Option<Groups>)
    requires LineInput(line) && 1 <= c < |line| && line[c] == ':'
    ensures r.Some? ==> MoveText(r.value.moves) && FromLine(line, r.value)
  {
    var j := SkipSpace(line, c + 1);
    if j < |line| && IsNonZeroDigit(line[j]) then
      var e := MoveRunEnd(line, j + 1);
      if e >= j + 2 && OpensTrailingGroup(line, e) then
        MoveGroup(line, j, e);
        Some(Groups(GroupText(line, j, e), GroupText(line, 0, c)))
      else None
    else None
  }

  /** Pattern 4 tried with the lazy name group ending at the colon at `c`:
      `:\s*([1-9]M+?)$`: everything after the colon is move text. */
  function Pattern4At(line: string, c: nat): (r: Option<Groups>)
    requires LineInput(line) && 1 <= c < |line| && line[c] == ':'
    ensures r.Some? ==> MoveText(r.value.moves) && FromLine(line, r.value)
  {
    var j := SkipSpace(line, c + 1);
    if j + 2 <= |line| && IsNonZeroDigit(line[j]) && AllMoveChars(line, j + 1, |line|) then
      AllMoveCharsMeans(line, j + 1, |line|);
      MoveGroup(line, j, |line|);
      Some(Groups(GroupText(line, j, |line|), GroupText(line, 0, c)))
    else None
  }

  /** The lazy `^(.+?):` of patterns 3 and 4 tries the colons from left to
      right (never the one at index 0) and keeps the first that lets the
      rest of the pattern match. */
  function NameFirst(line: string, c: nat, pattern4: bool): (r: Option<Groups>)
    requires LineInput(line) && c >= 1
    ensures r.Some? ==> MoveText(r.value.moves) && FromLine(line, r.value)
    decreases |line| - c
  {
    if c >= |line| then None
    else if line[c] == ':' then
      var here := if pattern4 then Pattern4At(line, c) else Pattern3At(line, c);
      if here.Some? then here else NameFirst(line, c + 1, pattern4)
    else NameFirst(line, c + 1, pattern4)
  }

  function Pattern3(line: string): (r: Option<Groups>)
    requires LineInput(line)
    ensures r.Some? ==> MoveText(r.value.moves) && FromLine(line, r.value)
  {
    NameFirst(line, 1, false)
  }

  function Pattern4(line: string): (r: Option<Groups>)
    requires LineInput(line)
    ensures r.Some? ==> MoveText(r.value.moves) && FromLine(line, r.value)
  {
    NameFirst(line, 1, true)
  }

  /** Colons are the only places the lazy name group can stop, so the
      search passes over a stretch without one. */
  lemma {:induction false} NameFirstSkips(line: string, c: nat, d: nat, pattern4: bool)
    requires LineInput(line) && 1 <= c <= d <= |line|
    requires forall q :: c <= q < d ==> line[q] != ':'
    ensures NameFirst(line, c, pattern4) == NameFirst(line, d, pattern4)
    decreases d - c
  {
    if c < d { NameFirstSkips(line, c + 1, d, pattern4); }
  }

  /** After the name's colon at `c`, a line holds a digit 1-9 at the first
      non-space `j`, and only move characters from there to `e`, where a
      character that is no move character stops them. */
  predicate MovesAfterColon(line: string, c: nat, j: nat, e: nat) {
    && 1 <= c < j < e <= |line|
    && line[c] == ':' && (forall q :: 0 <= q < c ==> line[q] != ':')
    && j == SkipSpace(line, c + 1) && IsNonZeroDigit(line[j]) && j + 2 <= e
    && (forall q :: j < q < e ==> IsMoveChar(line[q]))
    && (e < |line| ==> !IsMoveChar(line[e]))
  }

  /** The name's colon is the last colon of such a line when the move
      characters run to its end. */
  lemma NoColonAfterMoves(line: string, c: nat, j: nat)
    requires MovesAfterColon(line, c, j, |line|)
    ensures forall q :: c < q < |line| ==> line[q] != ':'
  {
    forall q | c < q < |line| ensures line[q] != ':' {
      if q < j { assert IsSpace(line[q]); } else if q > j { assert IsMoveChar(line[q]); }
    }
  }

  /** Pattern 4 reads a line whose first colon is followed by move text
      running to the end of the line, and pattern 3 does not: its move
      group would need a parenthetical after it. */
  lemma Pattern4Reads(line: string, c: nat, j: nat)
    requires LineInput(line) && MovesAfterColon(line, c, j, |line|)
    ensures Pattern3(line) == None
    ensures Pattern4(line) == Some(Groups(GroupText(line, j, |line|), GroupText(line, 0, c)))
  {
    NameFirstSkips(line, 1, c, false);
    NameFirstSkips(line, 1, c, true);
    NoColonAfterMoves(line, c, j);
    NameFirstSkips(line, c + 1, |line|, false);
    Pattern3AtFails(line, c, j);
    Pattern4AtReads(line, c, j);
  }

  /** Pattern 3 reads a line whose first colon is followed by move text
      that stops at a trailing parenthetical. */
  lemma Pattern3Reads(line: string, c: nat, j: nat, e: nat)
    requires LineInput(line) && MovesAfterColon(line, c, j, e) && OpensTrailingGroup(line, e)
    ensures Pattern3(line) == Some(Groups(GroupText(line, j, e), GroupText(line, 0, c)))
  {
    NameFirstSkips(line, 1, c, false);
    Pattern3AtReads(line, c, j, e);
  }

  /** The move characters after `j` run to `e`. */
  lemma MoveRunEndsAt(line: string, c: nat, j: nat, e: nat)
    requires MovesAfterColon(line, c, j, e)
    ensures MoveRunEnd(line, j + 1) == e
  {
  }

  lemma Pattern3AtFails(line: string, c: nat, j: nat)
    requires LineInput(line) && MovesAfterColon(line, c, j, |line|)
    ensures Pattern3At(line, c) == None
  {
    MoveRunEndsAt(line, c, j, |line|);
  }

  lemma Pattern3AtReads(line: string, c: nat, j: nat, e: nat)
    requires LineInput(line) && MovesAfterColon(line, c, j, e) && OpensTrailingGroup(line, e)
    ensures Pattern3At(line, c) == Some(Groups(GroupText(line, j, e), GroupText(line, 0, c)))
  {
    MoveRunEndsAt(line, c, j, e);
    var r := Pattern3At(line, c);
    assert r.Some?;
    assert r.value.moves == GroupText(line, j, e);
    assert r.value.name == GroupText(line, 0, c);
  }

  lemma Pattern4AtReads(line: string, c: nat, j: nat)
    requires LineInput(line) && MovesAfterColon(line, c, j, |line|)
    ensures Pattern4At(line, c) == Some(Groups(GroupText(line, j, |line|), GroupText(line, 0, c)))
  {
    AllMoveCharsMeans(line, j + 1, |line|);
    var r := Pattern4At(line, c);
    assert r.Some?;
    assert r.value.moves == GroupText(line, j, |line|);
    assert r.value.name == GroupText(line, 0, c);
  }

  /** A line that does not start with a digit 1-9 is no moves-first line:
      patterns 1 and 2 fail, and patterns 3 and 4 decide it. */
  lemma NameFirstCascade(line: string)
    requires LineInput(line) && line != "" && !IsNonZeroDigit(line[0])
    ensures Cascade(line) == (if Pattern3(line).Some? then Pattern3(line) else Pattern4(line))
  {
    assert MovesHead(line) == None;
  }

  /** The first pattern that matches decides the groups, even when a group
      turns out blank. */
  function Cascade(line: string): (r: Option<Groups>)
    requires LineInput(line)
    ensures r.Some? ==> MoveText(r.value.moves) && FromLine(line, r.value)
  {
    var m1 := Pattern1(line);
    if m1.Some? then m1
    else
      var m2 := Pattern2(line);
      if m2.Some? then m2
      else
        var m3 := Pattern3(line);
        if m3.Some? then m3
        else Pattern4(line)
  }

  // ---------------------------------------------------------------------
  // Normalisation of the move text

  /** Index of the first non-digit at or after `i` (or `|s|`). */
  function DigitRunEnd(s: string, i: nat): (r: nat)
    requires i <= |s|
    ensures i <= r <= |s|
    ensures forall q :: i <= q < r ==> IsDigit(s[q])
    ensures r < |s| ==> !IsDigit(s[r])
    decreases |s| - i
  {
    if i == |s| || !IsDigit(s[i]) then i else DigitRunEnd(s, i + 1)
  }

  /** `re.sub(r'\d+\.', '', s)`: every maximal run of digits that is
      followed by a dot is removed together with the dot. */
  function StripMoveNumbers(s: string): string
    decreases |s|
  {
    if |s| == 0 then ""
    else if IsDigit(s[0]) then
      var d := DigitRunEnd(s, 0);
      if d < |s| && s[d] == '.' then StripMoveNumbers(s[d + 1..])
      else s[..d] + StripMoveNumbers(s[d..])
    else [s[0]] + StripMoveNumbers(s[1..])
  }

  /** No `\d+\.` occurs: no digit is directly followed by a dot. */
  predicate NoMoveNumber(s: string) {
    forall i :: 0 <= i < |s| - 1 ==> !(IsDigit(s[i]) && s[i + 1] == '.')
  }

  /** The move key stored for a move text. */
  function Normalize(moves: string): (key: string)
    ensures Collapsed(key) && NoMoveNumber(key)
  {
    StripMoveNumbersClean(moves);
    CollapseIsCollapsed(StripMoveNumbers(moves));
    CollapseKeepsNoMoveNumber(StripMoveNumbers(moves));
    Collapse(StripMoveNumbers(moves))
  }

  /** The substitution leaves no move number behind: a digit run it keeps
      is followed by a character that is neither a digit nor a dot, and it
      keeps that character. */
  lemma {:induction false} StripMoveNumbersClean(s: string)
    ensures NoMoveNumber(StripMoveNumbers(s))
    ensures |s| > 0 && !IsDigit(s[0]) ==> StripMoveNumbers(s) == [s[0]] + StripMoveNumbers(s[1..])
    decreases |s|
  {
    if |s| == 0 {
    } else if IsDigit(s[0]) {
      var d := DigitRunEnd(s, 0);
      if d < |s| && s[d] == '.' {
        StripMoveNumbersClean(s[d + 1..]);
      } else {
        var rest := StripMoveNumbers(s[d..]);
        StripMoveNumbersClean(s[d..]);
        var t := s[..d] + rest;
        assert StripMoveNumbers(s) == t;
        forall i | 0 <= i < |t| - 1 ensures !(IsDigit(t[i]) && t[i + 1] == '.') {
          if i + 1 < d {
            assert IsDigit(t[i + 1]);
          } else if i + 1 == d {
            assert t[i + 1] == rest[0] == s[d];
          } else {
            assert t[i] == rest[i - d] && t[i + 1] == rest[i - d + 1];
          }
        }
      }
    } else {
      var rest := StripMoveNumbers(s[1..]);
      StripMoveNumbersClean(s[1..]);
      var t := [s[0]] + rest;
      forall i | 0 <= i < |t| - 1 ensures !(IsDigit(t[i]) && t[i + 1] == '.') {
        if i > 0 {
          assert t[i] == rest[i - 1] && t[i + 1] == rest[i];
        }
      }
    }
  }

  /** Collapsing whitespace creates no move number: a digit next to a dot
      in the collapsed text is next to it in the original. */
  lemma CollapseKeepsNoMoveNumber(s: string)
    requires NoMoveNumber(s)
    ensures NoMoveNumber(Collapse(s))
  {
    var t := Collapse(s);
    forall i | 0 <= i < |t| - 1 ensures !(IsDigit(t[i]) && t[i + 1] == '.') {
      if IsDigit(t[i]) && t[i + 1] == '.' {
        var p := t[i..i + 2];
        assert OccursAt(t, p, i);
        assert !IsSpace(p[0]) && !IsSpace(p[1]);
        CollapseAddsNoText(s, p);
        assert false;
      }
    }
  }

  lemma {:induction false} DigitRunEndPrefix(a: string, b: string, i: nat)
    requires i <= |a| && DigitRunEnd(a, i) < |a|
    ensures DigitRunEnd(a + b, i) == DigitRunEnd(a, i)
    decreases |a| - i
  {
    assert (a + b)[i] == a[i];
    if IsDigit(a[i]) { DigitRunEndPrefix(a, b, i + 1); }
  }

  /** The substitution works piecewise when the first piece does not end in
      a digit: no move number straddles the boundary. */
  lemma {:induction false} StripMoveNumbersAppend(a: string, b: string)
    requires |a| > 0 ==> !IsDigit(a[|a| - 1])
    ensures StripMoveNumbers(a + b) == StripMoveNumbers(a) + StripMoveNumbers(b)
    decreases |a|
  {
    if |a| == 0 {
      assert a + b == b;
    } else if IsDigit(a[0]) {
      var d := DigitRunEnd(a, 0);
      DigitRunEndPrefix(a, b, 0);
      assert (a + b)[0] == a[0];
      assert (a + b)[d] == a[d];
      if a[d] == '.' {
        assert (a + b)[d + 1..] == a[d + 1..] + b;
        StripMoveNumbersAppend(a[d + 1..], b);
      } else {
        assert (a + b)[d..] == a[d..] + b;
        assert (a + b)[..d] == a[..d];
        StripMoveNumbersAppend(a[d..], b);
      }
    } else {
      assert (a + b)[1..] == a[1..] + b;
      assert (a + b)[0] == a[0];
      StripMoveNumbersAppend(a[1..], b);
    }
  }

  /** Normalising move text one token at a time: a token whose substitution
      leaves a word and a space contributes that word to the key. */
  lemma NormalizeCons(t: string, w: string, rest: string)
    requires |t| > 0 && !IsDigit(t[|t| - 1]) && StripMoveNumbers(t) == w + " " && IsWord(w)
    requires Normalize(rest) != ""
    ensures Normalize(t + rest) == w + " " + Normalize(rest)
  {
    StripMoveNumbersAppend(t, rest);
    assert StripMoveNumbers(t + rest) == w + " " + StripMoveNumbers(rest);
    CollapseCons(w, StripMoveNumbers(rest));
  }

  /** Text without a dot holds no move number: the substitution leaves it
      alone. */
  lemma {:induction false} StripNoDot(s: string)
    requires '.' !in s
    ensures StripMoveNumbers(s) == s
    decreases |s|
  {
    if |s| > 0 {
      if IsDigit(s[0]) {
        var d := DigitRunEnd(s, 0);
        assert d < |s| ==> s[d] in s;
        assert '.' !in s[d..];
        StripNoDot(s[d..]);
        assert s[..d] + s[d..] == s;
      } else {
        assert '.' !in s[1..];
        StripNoDot(s[1..]);
        assert [s[0]] + s[1..] == s;
      }
    }
  }

  /** A move number of one digit, as the fallback table and the corpus
      write them, or none at all. */
  predicate NumberPrefix(n: string) {
    n == "" || (|n| == 2 && IsDigit(n[0]) && n[1] == '.')
  }

  /** A token is its move number followed by text without a dot; the
      substitution removes the number and keeps the text. */
  lemma StripToken(n: string, x: string)
    requires NumberPrefix(n) && '.' !in x
    ensures StripMoveNumbers(n + x) == x
  {
    StripNoDot(x);
    if n != "" {
      var t := n + x;
      assert DigitRunEnd(t, 1) == 1;
      assert t[2..] == x;
    } else {
      assert n + x == x;
    }
  }

  /** A numbered or bare word followed by a space and more move text
      contributes the word to the key. */
  lemma NormalizeToken(n: string, w: string, rest: string)
    requires NumberPrefix(n) && IsWord(w) && '.' !in w && Normalize(rest) != ""
    ensures Normalize(n + w + " " + rest) == w + " " + Normalize(rest)
  {
    assert '.' !in w + " ";
    StripToken(n, w + " ");
    assert n + w + " " == n + (w + " ");
    NormalizeCons(n + w + " ", w, rest);
  }

  /** The last token, a numbered or bare word, normalises to the word. */
  lemma NormalizeLastToken(n: string, w: string)
    requires NumberPrefix(n) && IsWord(w) && '.' !in w
    ensures Normalize(n + w) == w
  {
    StripToken(n, w);
    CollapseIdempotent(w);
  }

  /** Move text stays move text when more move characters follow. */
  lemma MoveTextAppend(a: string, b: string)
    requires MoveText(a) && forall q :: 0 <= q < |b| ==> IsMoveChar(b[q])
    ensures MoveText(a + b)
  {
    var t := a + b;
    forall q | 0 <= q < |t| ensures IsMoveChar(t[q]) {
      if q >= |a| { assert t[q] == b[q - |a|]; }
    }
  }

  /** What a stored entry looks like: non-empty key and name, a key that is
      the normalised form of the move text, and move text as the patterns
      capture it. */
  predicate WellFormed(e: Entry) {
    && e.moves != "" && e.name != ""
    && e.moves == Normalize(e.line)
    && MoveText(e.line)
  }

  // ---------------------------------------------------------------------
  // Loading

  /** The entry, if any, that one line of the file contributes. */
  function ParseLine(raw: string): (r: Option<Entry>)
    requires '\n' !in raw
    ensures Skipped(Strip(raw)) ==> r.None?
    ensures ':' !in raw ==> r.None?
    ensures r.Some? ==> WellFormed(r.value) && Contains(raw, r.value.line) && Contains(raw, r.value.name)
  {
    var line := Strip(raw);
    StripShape(raw);
    CharNotInSlice(raw, line, '\n');
    StripOccurs(raw);
    CharNotInSlice(raw, line, ':');
    if Skipped(line) then None
    else
      match Cascade(line)
      case None => None
      case Some(g) =>
        if g.moves != "" && g.name != "" then
          var key := Normalize(g.moves);
          if key != "" then
            ContainsTransitive(raw, line, g.moves);
            ContainsTransitive(raw, line, g.name);
            Some(Entry(key, g.name, g.moves))
          else None
        else None
  }

  /** A kept line whose groups are both non-blank and whose moves normalise
      to a non-empty key is stored under that key. */
  lemma ParseLineStores(line: string, g: Groups)
    requires LineInput(line) && Strip(line) == line && !Skipped(line)
    requires Cascade(line) == Some(g) && g.moves != "" && g.name != ""
    requires Normalize(g.moves) != ""
    ensures ParseLine(line) == Some(Entry(Normalize(g.moves), g.name, g.moves))
  {
  }

  /** The entries one line adds to the corpus: none or one. The pieces of
      a text split at newlines hold no newline, so the first branch is never
      taken for them. */
  function Contribution(raw: string): (r: seq<Entry>)
    ensures |r| <= 1
    ensures forall k :: 0 <= k < |r| ==> WellFormed(r[k])
    ensures '\n' !in raw ==> (|r| == 1 <==> ParseLine(raw).Some?)
    ensures '\n' !in raw && Skipped(Strip(raw)) ==> r == []
  {
    if '\n' in raw then []
    else
      match ParseLine(raw)
      case Some(e) => [e]
      case None => []
  }

  /** The contributions of the lines, in line order. */
  function Gather(lines: seq<string>, contribute: string -> seq<Entry>): seq<Entry> {
    if |lines| == 0 then [] else contribute(lines[0]) + Gather(lines[1..], contribute)
  }

  /** The corpus parsed from the file text, split at newlines. */
  function ParseCorpus(text: string): (r: seq<Entry>)
    ensures |r| <= |SplitOn(text, '\n')|
  {
    GatherAtMostOne(SplitOn(text, '\n'), Contribution);
    Gather(SplitOn(text, '\n'), Contribution)
  }

  lemma {:induction false} GatherAtMostOne(lines: seq<string>, contribute: string -> seq<Entry>)
    requires forall x :: |contribute(x)| <= 1
    ensures |Gather(lines, contribute)| <= |lines|
  {
    if |lines| > 0 { GatherAtMostOne(lines[1..], contribute); }
  }

  /** Gathering the lines of two pieces gathers each piece in turn. */
  lemma {:induction false} GatherAppend(a: seq<string>, b: seq<string>, contribute: string -> seq<Entry>)
    ensures Gather(a + b, contribute) == Gather(a, contribute) + Gather(b, contribute)
    decreases |a|
  {
    if |a| == 0 {
      assert a + b == b;
    } else {
      assert (a + b)[0] == a[0];
      assert (a + b)[1..] == a[1..] + b;
      GatherAppend(a[1..], b, contribute);
    }
  }

  /** Lines that contribute only well-formed entries gather into a
      well-formed corpus. */
  lemma {:induction false} GatherWellFormed(lines: seq<string>, contribute: string -> seq<Entry>)
    requires forall x, k :: 0 <= k < |contribute(x)| ==> WellFormed(contribute(x)[k])
    ensures forall k :: 0 <= k < |Gather(lines, contribute)| ==> WellFormed(Gather(lines, contribute)[k])
  {
    if |lines| > 0 {
      GatherWellFormed(lines[1..], contribute);
      var c, rest := contribute(lines[0]), Gather(lines[1..], contribute);
      forall k | 0 <= k < |c + rest| ensures WellFormed((c + rest)[k]) {
        if k >= |c| { assert (c + rest)[k] == rest[k - |c|]; }
      }
    }
  }

  /** Lines that contribute nothing gather into nothing. */
  lemma {:induction false} GatherNothing(lines: seq<string>, contribute: string -> seq<Entry>)
    requires forall k :: 0 <= k < |lines| ==> contribute(lines[k]) == []
    ensures Gather(lines, contribute) == []
  {
    if |lines| > 0 {
      assert contribute(lines[0]) == [];
      GatherNothing(lines[1..], contribute);
    }
  }

  // ---------------------------------------------------------------------
  // Resolving

  /** Entry `i` is the one the resolver should pick among the first `n`:
      its non-empty key starts `played`, no matching key among the first
      `n` is longer, and every earlier matching key is strictly shorter. */
  ghost predicate IsBestAmong(corpus: seq<Entry>, played: string, i: int, n: int) {
    && 0 <= i < n <= |corpus|
    && corpus[i].moves != "" && corpus[i].moves <= played
    && (forall j :: 0 <= j < n && corpus[j].moves <= played ==> |corpus[j].moves| <= |corpus[i].moves|)
    && (forall j :: 0 <= j < i && corpus[j].moves <= played ==> |corpus[j].moves| < |corpus[i].moves|)
  }

  /** No entry among the first `n` has a non-empty key starting `played`. */
  ghost predicate NoMatchAmong(corpus: seq<Entry>, played: string, n: int)
    requires 0 <= n <= |corpus|
  {
    forall j :: 0 <= j < n && corpus[j].moves <= played ==> corpus[j].moves == ""
  }

  function KeyLength(corpus: seq<Entry>, best: Option<nat>): nat
    requires best.Some? ==> best.value < |corpus|
  {
    if best.None? then 0 else |corpus[best.value].moves|
  }

  /** The scan over the first `n` entries: an entry replaces the best so
      far when its key starts the played text and is strictly longer. */
  function BestIndex(corpus: seq<Entry>, played: string, n: nat): (r: Option<nat>)
    requires n <= |corpus|
    ensures r.Some? ==> IsBestAmong(corpus, played, r.value, n)
    ensures r.None? ==> NoMatchAmong(corpus, played, n)
  {
    if n == 0 then None
    else
      var best := BestIndex(corpus, played, n - 1);
      var e := corpus[n - 1];
      if e.moves <= played && |e.moves| > KeyLength(corpus, best) then Some(n - 1) else best
  }

  /** `get_opening_info`: the name and display line of the best entry for
      the played SAN moves joined by spaces. */
  function Resolve(corpus: seq<Entry>, sans: seq<string>): (r: (string, string))
    ensures |sans| == 0 ==> r == ("Starting Position", "")
    ensures |sans| > 0 && NoMatchAmong(corpus, JoinWith(sans, " "), |corpus|) ==> r == ("Unknown Opening", "")
    ensures |sans| > 0 && !NoMatchAmong(corpus, JoinWith(sans, " "), |corpus|) ==>
              exists i :: IsBestAmong(corpus, JoinWith(sans, " "), i, |corpus|) && r == (corpus[i].name, corpus[i].line)
  {
    if |sans| == 0 then ("Starting Position", "")
    else
      match BestIndex(corpus, JoinWith(sans, " "), |corpus|)
      case None => ("Unknown Opening", "")
      case Some(i) => (corpus[i].name, corpus[i].line)
  }
}
